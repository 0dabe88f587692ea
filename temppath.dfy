/**
 * Where pass 1 writes: a file `_temp_<timestamp>.mp3` in the directory of the job's
 * output path. Paths are POSIX strings; `Dirname`, `Basename` and `Join` follow the
 * path module of the runtime for paths without `.`/`..` segments or trailing slashes.
 */
module TempPath {
  import opened Wrappers

  /** The index of the last '/' in a path, if there is one. */
  function LastSlash(path: string): (r: Option<nat>)
    ensures r.Some? ==> r.value < |path| && path[r.value] == '/'
    ensures r.Some? ==> forall j :: r.value < j < |path| ==> path[j] != '/'
    ensures r.None? ==> forall j :: 0 <= j < |path| ==> path[j] != '/'
  {
    if |path| == 0 then None
    else if path[|path| - 1] == '/' then Some(|path| - 1)
    else LastSlash(path[..|path| - 1])
  }

  /** The directory part of a path: "." for a bare name, "/" for an entry of the root. */
  function Dirname(path: string): (dir: string)
    ensures dir != ""
  {
    match LastSlash(path)
    case None => "."
    case Some(i) => if i == 0 then "/" else path[..i]
  }

  /** The last segment of a path. */
  function Basename(path: string): string {
    match LastSlash(path)
    case None => path
    case Some(i) => path[i + 1..]
  }

  /** A file named `name` in directory `dir`. */
  function Join(dir: string, name: string): string {
    if dir == "." then name else if dir == "/" then "/" + name else dir + "/" + name
  }

  /** A file name is a single path segment. */
  predicate IsName(name: string) {
    forall j :: 0 <= j < |name| ==> name[j] != '/'
  }

  lemma {:induction false} JoinSplits(dir: string, name: string)
    requires dir != "" && IsName(name)
    ensures Dirname(Join(dir, name)) == dir
    ensures Basename(Join(dir, name)) == name
  {
    var path := Join(dir, name);
    if dir == "." {
      assert path == name;
    } else {
      var k := if dir == "/" then 0 else |dir|;
      assert path[k] == '/';
      assert path[k + 1..] == name;
      assert forall j :: k < j < |path| ==> path[j] == name[j - k - 1];
      assert LastSlash(path) == Some(k);
    }
  }

  /** The decimal digits of a number, as a template string prints it. */
  function Decimal(n: nat): (s: string)
    ensures |s| > 0
    ensures forall j :: 0 <= j < |s| ==> '0' <= s[j] <= '9'
  {
    if n < 10 then [Digit(n)] else Decimal(n / 10) + [Digit(n % 10)]
  }

  function Digit(d: nat): (c: char)
    requires d < 10
    ensures '0' <= c <= '9'
  {
    ('0' as int + d) as char
  }

  /** The number a string of decimal digits denotes. */
  function DecimalValue(s: string): nat
    requires forall j :: 0 <= j < |s| ==> '0' <= s[j] <= '9'
  {
    if s == [] then 0 else 10 * DecimalValue(s[..|s| - 1]) + (s[|s| - 1] as int - '0' as int)
  }

  lemma {:induction false} DecimalRoundTrip(n: nat)
    ensures DecimalValue(Decimal(n)) == n
  {
    var s := Decimal(n);
    if n >= 10 {
      DecimalRoundTrip(n / 10);
      assert s[..|s| - 1] == Decimal(n / 10);
    }
  }

  /** The temporary file name for a job started at millisecond `stamp`. */
  function TempName(stamp: nat): (name: string)
    ensures IsName(name)
  {
    "_temp_" + Decimal(stamp) + ".mp3"
  }

  /** The temporary file of a job writing `outputPath`, started at `stamp`. */
  function TempFile(outputPath: string, stamp: nat): string {
    Join(Dirname(outputPath), TempName(stamp))
  }

  /** Two jobs started at different milliseconds get different temporary names. */
  lemma TempNameInjective(a: nat, b: nat)
    requires TempName(a) == TempName(b)
    ensures a == b
  {
    var na, nb := TempName(a), TempName(b);
    assert na[6..|na| - 4] == Decimal(a);
    assert nb[6..|nb| - 4] == Decimal(b);
    DecimalRoundTrip(a);
    DecimalRoundTrip(b);
  }

  /** The temporary file sits beside the output, under its own name. */
  lemma TempFileColocated(outputPath: string, stamp: nat)
    ensures Dirname(TempFile(outputPath, stamp)) == Dirname(outputPath)
    ensures Basename(TempFile(outputPath, stamp)) == TempName(stamp)
    ensures Basename(outputPath) != TempName(stamp) ==> TempFile(outputPath, stamp) != outputPath
  {
    JoinSplits(Dirname(outputPath), TempName(stamp));
  }
}
