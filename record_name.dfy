/**
 * How one invocation names its record: the key from the clock, the title
 * from the parsed command line, and the path `./docs/adr/<key>_<title>.md`.
 * `ParseRecordPath` is the inverse of `RecordPath`: it reads such a path back
 * into its key and title.
 */
module RecordName {
  import opened Wrappers
  import opened Numerals

  /** The fixed record directory; nothing configures it. */
  const DIRECTORY: string := "./docs/adr"
  const EXTENSION: string := ".md"
  /** The title used when the command line supplies none. */
  const NO_TITLE: string := "No title"
  const NANOS_PER_SEC: nat := 1_000_000_000

  /** The directory followed by the separator, which starts every record path. */
  function DirPrefix(): string {
    DIRECTORY + "/"
  }

  // ---------------------------------------------------------------- key

  datatype ClockError = BeforeUnixEpoch

  /**
   * The key: whole seconds elapsed since the Unix epoch. `nanos` is the clock
   * reading in nanoseconds relative to the epoch; a negative reading is a
   * clock set before the epoch, on which the program panics.
   */
  function GetKey(nanos: int): (r: Result<nat, ClockError>)
    ensures r.Failure? <==> nanos < 0
    ensures r.Success? ==> r.value * NANOS_PER_SEC <= nanos < (r.value + 1) * NANOS_PER_SEC
  {
    if nanos < 0 then Failure(BeforeUnixEpoch) else Success(nanos / NANOS_PER_SEC)
  }

  /** Two readings in the same whole second get the same key: the sub-second part is dropped. */
  lemma GetKeySameSecond(a: int, b: int, sec: nat)
    requires sec * NANOS_PER_SEC <= a < (sec + 1) * NANOS_PER_SEC
    requires sec * NANOS_PER_SEC <= b < (sec + 1) * NANOS_PER_SEC
    ensures GetKey(a) == GetKey(b) == Success(sec)
  {
  }

  /** A later reading never gets a smaller key. */
  lemma GetKeyMonotonic(a: int, b: int)
    requires 0 <= a <= b
    ensures GetKey(a).Success? && GetKey(b).Success?
    ensures GetKey(a).value <= GetKey(b).value
  {
  }

  // ---------------------------------------------------------------- title

  /** What the `adr` subcommand's matches expose: the `TITLE` argument, if present. */
  datatype SubcommandMatches = SubcommandMatches(title: Option<string>)

  /** The parsed command line: the matches of the `adr` subcommand, if it was given. */
  datatype ArgMatches = ArgMatches(adr: Option<SubcommandMatches>)

  /** The title: `TITLE` of the `adr` subcommand, otherwise "No title". */
  function GetTitle(m: ArgMatches): (t: string)
    ensures m.adr.Some? && m.adr.value.title.Some? ==> t == m.adr.value.title.value
    ensures m.adr.None? || m.adr.value.title.None? ==> t == NO_TITLE
  {
    match m.adr
    case Some(sub) =>
      (match sub.title
       case Some(title) => title
       case None => NO_TITLE)
    case None => NO_TITLE
  }

  // ---------------------------------------------------------------- path

  /** The record path: directory, `/`, the key in decimal, `_`, the title verbatim, `.md`. */
  function RecordPath(key: nat, title: string): (p: string)
    ensures |p| == |DirPrefix()| + |Decimal(key)| + 1 + |title| + |EXTENSION|
    ensures p[..|DirPrefix()|] == DirPrefix()
    ensures p[|p| - |EXTENSION|..] == EXTENSION
  {
    DIRECTORY + "/" + Decimal(key) + "_" + title + EXTENSION
  }

  /** The position of the first `c` in `s`, if any. */
  function FindChar(s: string, c: char): (r: Option<nat>)
    ensures r.Some? ==> r.value < |s| && s[r.value] == c && c !in s[..r.value]
    ensures r.None? ==> c !in s
  {
    if s == [] then None
    else if s[0] == c then Some(0)
    else match FindChar(s[1..], c)
      case None => None
      case Some(j) =>
        assert s[..j + 1] == [s[0]] + s[1..][..j];
        Some(j + 1)
  }

  /**
   * Reads a record path back into its key and title: strip the directory and
   * the extension, split at the first `_`, and accept the part before it only
   * if it is a canonical decimal numeral.
   */
  function ParseRecordPath(p: string): Option<(nat, string)> {
    var pre := DirPrefix();
    if |p| < |pre| + |EXTENSION| || p[..|pre|] != pre || p[|p| - |EXTENSION|..] != EXTENSION then None
    else
      var body := p[|pre|..|p| - |EXTENSION|];
      match FindChar(body, '_')
      case None => None
      case Some(j) =>
        var digits := body[..j];
        if IsCanonical(digits) then Some((ValueOf(digits), body[j + 1..])) else None
  }

  /** Parsing a record path recovers its key and its title, verbatim. */
  lemma ParseRecordPathOfRecordPath(key: nat, title: string)
    ensures ParseRecordPath(RecordPath(key, title)) == Some((key, title))
  {
    var p := RecordPath(key, title);
    var pre, d := DirPrefix(), Decimal(key);
    var body := p[|pre|..|p| - |EXTENSION|];
    assert body == d + "_" + title;
    assert body[..|d|] == d;
    assert body[|d|] == '_';
    assert FindChar(body, '_') == Some(|d|);
    assert body[|d| + 1..] == title;
    ValueOfDecimal(key);
  }

  /** Every path that parses is the record path of what it parses to. */
  lemma RecordPathOfParseRecordPath(p: string, key: nat, title: string)
    requires ParseRecordPath(p) == Some((key, title))
    ensures RecordPath(key, title) == p
  {
    var pre := DirPrefix();
    var body := p[|pre|..|p| - |EXTENSION|];
    var j := FindChar(body, '_').value;
    var digits := body[..j];
    DecimalOfValue(digits);
    assert body == digits + "_" + title;
    assert p == pre + body + EXTENSION;
  }

  /** Distinct (key, title) pairs give distinct record paths. */
  lemma RecordPathInjective(k1: nat, t1: string, k2: nat, t2: string)
    requires RecordPath(k1, t1) == RecordPath(k2, t2)
    ensures k1 == k2 && t1 == t2
  {
    ParseRecordPathOfRecordPath(k1, t1);
    ParseRecordPathOfRecordPath(k2, t2);
  }

  /** The key segment of a record path is a canonical numeral holding no `_`, and the title follows it unchanged. */
  lemma RecordPathSegments(key: nat, title: string)
    ensures var p, pre, d := RecordPath(key, title), DirPrefix(), Decimal(key);
      IsCanonical(d) && '_' !in d &&
      p[|pre|..|pre| + |d|] == d && p[|pre| + |d|] == '_' &&
      p[|pre| + |d| + 1..|p| - |EXTENSION|] == title
  {
  }
}
