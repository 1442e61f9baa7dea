/**
 * The small part of Python's runtime behaviour that the facade relies on:
 * `None`, raised exceptions, attributes that were never assigned, truthiness
 * of optional strings, f-string rendering, `str.startswith`/`str.endswith`,
 * `s.split('/')[-1]`, `str(n)` for a natural number and the slice `s[0:-k]`.
 */
module PyBuiltins {

  /** Python's `None` or a value. */
  datatype Option<+T> = None | Some(value: T)

  /** The exceptions the facade code can raise on its own. */
  datatype PyError =
    | KeyError(key: string)
    | AttributeError(attribute: string)
    | TypeError(reason: string)
    | IndexError(reason: string)

  /** A call that either returns a value or raises. */
  datatype Result<+T> = Ok(value: T) | Err(error: PyError)

  /** A call that returns `None` or raises. */
  datatype Outcome = Pass | Fail(error: PyError)

  /**
   * An instance attribute. `Missing` is an attribute that no code has
   * assigned (reading it raises `AttributeError`), which is different from
   * an attribute holding `None`.
   */
  datatype Attr<+T> = Missing | Assigned(value: T)

  /** `bool(s)` for a `str` that may be `None`: neither `None` nor `''`. */
  predicate Truthy(s: Option<string>) {
    s.Some? && s.value != ""
  }

  /** How an f-string renders a `str` that may be `None`. */
  function Format(s: Option<string>): string {
    match s
    case None => "None"
    case Some(v) => v
  }

  /** `s.startswith(prefix)` */
  predicate StartsWith(s: string, prefix: string) {
    |prefix| <= |s| && s[..|prefix|] == prefix
  }

  /** `s.endswith(suffix)` */
  predicate EndsWith(s: string, suffix: string) {
    |suffix| <= |s| && s[|s| - |suffix|..] == suffix
  }

  /** `f'{dir}/{entry}'`, the way every path in the facade is built. */
  function JoinPath(dir: string, entry: string): string {
    dir + "/" + entry
  }

  /**
   * `s.split('/')[-1]`: the text after the last `/`, or all of `s` when it
   * has none. The three postconditions pin the result down: it is a suffix
   * of `s`, holds no `/`, and is preceded by a `/` unless it is all of `s`.
   */
  function LastSegment(s: string): (r: string)
    ensures '/' !in r
    ensures EndsWith(s, r)
    ensures |r| < |s| ==> s[|s| - |r| - 1] == '/'
  {
    if s == [] then []
    else if s[|s| - 1] == '/' then []
    else LastSegment(s[..|s| - 1]) + [s[|s| - 1]]
  }

  /** Splitting a joined path gives back the entry that was joined. */
  lemma {:induction false} LastSegmentOfJoin(dir: string, entry: string)
    requires '/' !in entry
    ensures LastSegment(JoinPath(dir, entry)) == entry
  {
    var p := JoinPath(dir, entry);
    if entry != [] {
      var shorter := entry[..|entry| - 1];
      assert p[..|p| - 1] == JoinPath(dir, shorter);
      assert entry[|entry| - 1] in entry;
      LastSegmentOfJoin(dir, shorter);
      assert entry == shorter + [entry[|entry| - 1]];
    }
  }

  /** The character of one decimal digit. */
  function DigitChar(d: nat): char
    requires d < 10
  {
    (d + 48) as char
  }

  /** `str(n)` for a natural number, in decimal without leading zeros. */
  function NatToString(n: nat): (r: string)
    ensures |r| >= 1
    ensures (|r| == 1) == (n < 10)
    ensures forall i :: 0 <= i < |r| ==> '0' <= r[i] <= '9'
  {
    if n < 10 then [DigitChar(n)] else NatToString(n / 10) + [DigitChar(n % 10)]
  }

  /** Different numbers print differently. */
  lemma {:induction false} NatToStringInjective(m: nat, n: nat)
    requires NatToString(m) == NatToString(n)
    ensures m == n
  {
    if m >= 10 && n >= 10 {
      var sm, sn := NatToString(m), NatToString(n);
      assert DigitChar(m % 10) == sm[|sm| - 1] == sn[|sn| - 1] == DigitChar(n % 10);
      assert NatToString(m / 10) == sm[..|sm| - 1] == sn[..|sn| - 1] == NatToString(n / 10);
      NatToStringInjective(m / 10, n / 10);
    }
  }

  /**
   * The slice `s[0:-k]` for a positive `k`: all but the last `k` characters,
   * and the empty string when `s` is shorter than `k`.
   */
  function DropLast(s: string, k: nat): (r: string)
    requires k > 0
    ensures |s| >= k ==> |r| == |s| - k && r + s[|s| - k..] == s
    ensures |s| < k ==> r == ""
  {
    if |s| >= k then s[..|s| - k] else ""
  }
}
