/** Configuration values and their small amount of logic (config.go): the
    log-level decoder, the SDK option list, and the "processed" flag. */
module Configuration {
  import opened Common

  /** zerolog.Level, an int8. */
  newtype Level = x: int | -128 <= x < 128

  const TraceLevel: Level := -1
  const DebugLevel: Level := 0
  const InfoLevel: Level := 1
  const WarnLevel: Level := 2
  const ErrorLevel: Level := 3
  const FatalLevel: Level := 4
  const PanicLevel: Level := 5

  /** The seven accepted level names and the level each one selects. */
  const LevelByName: map<string, Level> := map[
    "panic" := PanicLevel, "fatal" := FatalLevel, "error" := ErrorLevel,
    "warn" := WarnLevel, "info" := InfoLevel, "debug" := DebugLevel,
    "trace" := TraceLevel]

  /** unicode.IsSpace: the Latin-1 spaces and the other code points with the
      Unicode White_Space property. */
  predicate IsSpace(c: char)
  {
    var n := c as int;
    n == 0x09 || n == 0x0A || n == 0x0B || n == 0x0C || n == 0x0D || n == 0x20
    || n == 0x85 || n == 0xA0 || n == 0x1680 || (0x2000 <= n <= 0x200A)
    || n == 0x2028 || n == 0x2029 || n == 0x202F || n == 0x205F || n == 0x3000
  }

  /** Lower-casing neither makes nor removes white space, so trimming
      before or after it cuts the same characters. */
  lemma LowerKeepsSpace(c: char)
    ensures IsSpace(LowerChar(c)) <==> IsSpace(c)
  {
  }

  /** strings.ToLower, one character at a time. */
  function ToLower(s: string): (r: string)
    ensures |r| == |s| && forall i :: 0 <= i < |s| ==> r[i] == LowerChar(s[i])
  {
    seq(|s|, i requires 0 <= i < |s| => LowerChar(s[i]))
  }

  /** How many white-space characters `s` starts with. */
  function LeadingSpace(s: string): (n: nat)
    ensures n <= |s|
    ensures forall k :: 0 <= k < n ==> IsSpace(s[k])
    ensures n < |s| ==> !IsSpace(s[n])
  {
    if s != [] && IsSpace(s[0]) then 1 + LeadingSpace(s[1..]) else 0
  }

  /** Where the white space that `s` ends with begins. */
  function TrailingSpace(s: string): (n: nat)
    ensures n <= |s|
    ensures forall k :: n <= k < |s| ==> IsSpace(s[k])
    ensures 0 < n ==> !IsSpace(s[n - 1])
  {
    if s != [] && IsSpace(s[|s| - 1]) then TrailingSpace(s[..|s| - 1]) else |s|
  }

  /** strings.TrimSpace: leading white space is cut first, then trailing. */
  function TrimSpace(s: string): (r: string)
    ensures r == [] || (!IsSpace(r[0]) && !IsSpace(r[|r| - 1]))
    ensures LeadingSpace(s) + |r| <= |s| && r == s[LeadingSpace(s)..LeadingSpace(s) + |r|]
    ensures forall k :: LeadingSpace(s) + |r| <= k < |s| ==> IsSpace(s[k])
  {
    var left := s[LeadingSpace(s)..];
    left[..TrailingSpace(left)]
  }

  /** What Decode compares: the value lower-cased, then trimmed. */
  function Normalise(value: string): string
  {
    TrimSpace(ToLower(value))
  }

  /** The switch of LevelDecoder.Decode over an already normalised value:
      the level a name selects, if it is one of the seven names. */
  function LevelNamed(v: string): (r: Option<Level>)
    ensures r.Some? <==> v in LevelByName
    ensures r.Some? ==> r.value == LevelByName[v]
  {
    if v == "panic" then Some(PanicLevel)
    else if v == "fatal" then Some(FatalLevel)
    else if v == "error" then Some(ErrorLevel)
    else if v == "warn" then Some(WarnLevel)
    else if v == "info" then Some(InfoLevel)
    else if v == "debug" then Some(DebugLevel)
    else if v == "trace" then Some(TraceLevel)
    else None
  }

  /** LevelDecoder.Decode as a function: the receiver `ll` becomes the
      level named by the normalised value; any other value is an error
      naming it, and the receiver keeps its old level. The result pairs
      the receiver's new level with the returned error. */
  function DecodeLevel(ll: Level, value: string): (r: (Level, Option<Error>))
    ensures r.1.None? <==> Normalise(value) in LevelByName
    ensures r.1.None? ==> r.0 == LevelByName[Normalise(value)]
    ensures r.1.Some? ==> r.0 == ll && r.1.value == UnknownLogLevel(Normalise(value))
  {
    var v := Normalise(value);
    match LevelNamed(v)
    case Some(level) => (level, None)
    case None => (ll, Some(UnknownLogLevel(v)))
  }

  /** LevelDecoder: a level that a configuration loader decodes in place. */
  class LevelDecoder {
    var level: Level

    constructor (level: Level)
      ensures this.level == level
    {
      this.level := level;
    }

    /** Decode writes the named level through the receiver; on an unknown
        value it returns the error and the receiver keeps its level. */
    method Decode(value: string) returns (err: Option<Error>)
      modifies this
      ensures (level, err) == DecodeLevel(old(level), value)
    {
      var v := Normalise(value);
      if v == "panic" {
        level := PanicLevel;
      } else if v == "fatal" {
        level := FatalLevel;
      } else if v == "error" {
        level := ErrorLevel;
      } else if v == "warn" {
        level := WarnLevel;
      } else if v == "info" {
        level := InfoLevel;
      } else if v == "debug" {
        level := DebugLevel;
      } else if v == "trace" {
        level := TraceLevel;
      } else {
        return Some(UnknownLogLevel(v));
      }
      err := None;
    }
  }

  /** Each of the seven names selects its own level. */
  lemma LevelsAreDistinct(a: string, b: string)
    requires a in LevelByName && b in LevelByName && a != b
    ensures LevelByName[a] != LevelByName[b]
  {
  }

  /** The SDK options the configuration can produce. */
  datatype SdkOption =
    | WithCredentials(clientID: string, clientSecret: string)
    | WithEnsignEndpoint(endpoint: string, insecure: bool)
    | WithAuthenticator(url: string, insecure: bool)

  datatype EnsignConfig = EnsignConfig(
    clientID: string, clientSecret: string, endpoint: string, authURL: string)
  {
    /** The options for connecting to the platform: credentials always
        first, then the endpoint and the authenticator when they are set. */
    method Options() returns (opts: seq<SdkOption>)
      ensures |opts| == 1 + (if endpoint != "" then 1 else 0) + (if authURL != "" then 1 else 0)
      ensures opts[0] == WithCredentials(clientID, clientSecret)
      ensures WithEnsignEndpoint(endpoint, false) in opts <==> endpoint != ""
      ensures WithAuthenticator(authURL, false) in opts <==> authURL != ""
      ensures endpoint != "" ==> opts[1] == WithEnsignEndpoint(endpoint, false)
      ensures authURL != "" ==> opts[|opts| - 1] == WithAuthenticator(authURL, false)
    {
      opts := [];
      opts := opts + [WithCredentials(clientID, clientSecret)];
      if endpoint != "" {
        opts := opts + [WithEnsignEndpoint(endpoint, false)];
      }
      if authURL != "" {
        opts := opts + [WithAuthenticator(authURL, false)];
      }
    }
  }

  /** The process configuration; `interval` is a duration in nanoseconds. */
  datatype Config = Config(
    topic: string,
    ensureTopicExists: bool,
    interval: int,
    consoleLog: bool,
    logLevel: Level,
    ensign: EnsignConfig,
    processed: bool)
  {
    /** A configuration is zero until it has been processed. */
    predicate IsZero()
    {
      !processed
    }

    /** Validation enforces nothing. */
    function Validate(): Option<Error>
    {
      None
    }

    /** A copy marked as processed, provided it validates. */
    function Mark(): (r: (Config, Option<Error>))
      ensures r.1 == None && !r.0.IsZero()
      ensures r.0 == this.(processed := true)
    {
      if Validate().Some? then (this, Validate()) else (this.(processed := true), None)
    }

    /** The level the configuration selects for logging. */
    function GetLogLevel(): Level
    {
      logLevel
    }
  }

  /** NewConfig, given what the environment loader left in a zero
      configuration and the error it returned: on success the copy is
      marked processed; on failure it is returned as it is. */
  function NewConfig(loaded: Config, err: Option<Error>): (r: (Config, Option<Error>))
    requires !loaded.processed
    ensures r.1 == err
    ensures err.None? ==> !r.0.IsZero() && r.0 == loaded.(processed := true)
    ensures err.Some? ==> r.0.IsZero() && r.0 == loaded
  {
    if err.Some? then (loaded, err) else (loaded.(processed := true), None)
  }

  /** After a value decodes, the configuration reports the level it named. */
  lemma GetLogLevelAfterDecode(c: Config, value: string)
    requires DecodeLevel(c.logLevel, value).1.None?
    ensures c.(logLevel := DecodeLevel(c.logLevel, value).0).GetLogLevel() == LevelByName[Normalise(value)]
  {
  }

  /** Leading white space before a word that does not start with white
      space is exactly the prefix. */
  lemma {:induction false} LeadingSpaceOf(pre: string, rest: string)
    requires forall k :: 0 <= k < |pre| ==> IsSpace(pre[k])
    requires rest == [] || !IsSpace(rest[0])
    ensures LeadingSpace(pre + rest) == |pre|
  {
    if pre != [] {
      assert (pre + rest)[1..] == pre[1..] + rest;
      LeadingSpaceOf(pre[1..], rest);
    }
  }

  /** Trailing white space after a word that does not end with white space
      begins right after the word. */
  lemma {:induction false} TrailingSpaceOf(word: string, post: string)
    requires forall k :: 0 <= k < |post| ==> IsSpace(post[k])
    requires word == [] || !IsSpace(word[|word| - 1])
    ensures TrailingSpace(word + post) == |word|
  {
    if post != [] {
      assert (word + post)[..|word + post| - 1] == word + post[..|post| - 1];
      TrailingSpaceOf(word, post[..|post| - 1]);
    }
  }

  /** Normalising a word padded with white space gives the word in lower
      case, provided it neither starts nor ends with white space. */
  lemma NormalisePadded(pre: string, word: string, post: string)
    requires forall k :: 0 <= k < |pre| ==> IsSpace(pre[k])
    requires forall k :: 0 <= k < |post| ==> IsSpace(post[k])
    requires word != [] && !IsSpace(word[0]) && !IsSpace(word[|word| - 1])
    ensures Normalise(pre + word + post) == ToLower(word)
  {
    LowerKeepsSpace(word[0]);
    LowerKeepsSpace(word[|word| - 1]);
    var name := ToLower(word);
    assert ToLower(pre + word + post) == pre + (name + post);
    LeadingSpaceOf(pre, name + post);
    assert (pre + (name + post))[|pre|..] == name + post;
    TrailingSpaceOf(name, post);
  }

  /** Every level name is a plain word: it neither starts nor ends with
      white space. */
  lemma LevelNamesAreWords(name: string)
    requires name in LevelByName
    ensures name != [] && !IsSpace(name[0]) && !IsSpace(name[|name| - 1])
  {
    assert name in {"panic", "fatal", "error", "warn", "info", "debug", "trace"};
  }

  /** Decode ignores letter case and surrounding white space: any spelling
      of a level name in any case, padded with white space, selects that
      level. */
  lemma DecodeIgnoresCaseAndSpace(ll: Level, pre: string, word: string, post: string)
    requires forall k :: 0 <= k < |pre| ==> IsSpace(pre[k])
    requires forall k :: 0 <= k < |post| ==> IsSpace(post[k])
    requires ToLower(word) in LevelByName
    ensures DecodeLevel(ll, pre + word + post) == (LevelByName[ToLower(word)], None)
  {
    LevelNamesAreWords(ToLower(word));
    LowerKeepsSpace(word[0]);
    LowerKeepsSpace(word[|word| - 1]);
    NormalisePadded(pre, word, post);
  }

  /** A level name in any case, with no padding, selects that name's
      level. */
  lemma DecodeWord(ll: Level, word: string)
    requires ToLower(word) in LevelByName
    ensures DecodeLevel(ll, word) == (LevelByName[ToLower(word)], None)
  {
    assert word == "" + word + "";
    DecodeIgnoresCaseAndSpace(ll, "", word, "");
  }

  /** Spellings the package's own tests use: upper case, mixed case and
      padding. */
  lemma DecodeUpperCase(ll: Level)
    ensures DecodeLevel(ll, "FATAL") == (FatalLevel, None)
  {
    assert ToLower("FATAL") == "fatal";
    DecodeWord(ll, "FATAL");
  }

  lemma DecodePadded(ll: Level)
    ensures DecodeLevel(ll, "   warn   ") == (WarnLevel, None)
  {
    var pad := "   ";
    assert forall k :: 0 <= k < |pad| ==> IsSpace(pad[k]);
    assert "   warn   " == pad + "warn" + pad;
    assert ToLower("warn") == "warn";
    DecodeIgnoresCaseAndSpace(ll, pad, "warn", pad);
  }

  lemma DecodeMixedCase(ll: Level)
    ensures DecodeLevel(ll, "iNFo") == (InfoLevel, None)
  {
    assert ToLower("iNFo") == "info";
    DecodeWord(ll, "iNFo");
  }

  /** An unpadded word normalises to its lower-case form. */
  lemma NormaliseWord(word: string)
    requires word != [] && !IsSpace(word[0]) && !IsSpace(word[|word| - 1])
    ensures Normalise(word) == ToLower(word)
  {
    assert word == "" + word + "";
    NormalisePadded("", word, "");
  }

  /** The value the package's own tests reject, and the error it gets. */
  lemma DecodeRejectsUnknown(ll: Level)
    ensures DecodeLevel(ll, "notalevel") == (ll, Some(UnknownLogLevel("notalevel")))
  {
    var v := "notalevel";
    NormaliseWord(v);
    assert ToLower(v) == v;
    assert LevelNamed(v).None?;
  }
}
