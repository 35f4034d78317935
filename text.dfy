/** String operations the adapter takes from Go's `strings` and `fmt` packages:
    `strings.Join`, `strings.Split` on one separator, the `%q` verb, and the
    replacer that turns `.` and `-` into `_` in API group names. */
module Text {
  import opened Wrappers

  /** The summed length of the pieces. */
  function TotalLength(xs: seq<string>): nat
  {
    if |xs| == 0 then 0 else |xs[0]| + TotalLength(xs[1..])
  }

  /** `strings.Join(xs, sep)`: no pieces give the empty string; otherwise the
      pieces with one separator between each neighbouring pair. */
  function Join(xs: seq<string>, sep: string): (r: string)
    ensures |xs| == 0 ==> r == ""
    ensures |xs| >= 1 ==> |r| == TotalLength(xs) + (|xs| - 1) * |sep|
  {
    if |xs| == 0 then ""
    else if |xs| == 1 then xs[0]
    else xs[0] + sep + Join(xs[1..], sep)
  }

  /** `strings.Split(s, string(sep))`: the pieces between occurrences of `sep`. */
  function Split(s: string, sep: char): (r: seq<string>)
    ensures |r| >= 1
  {
    if |s| == 0 then [""]
    else
      var rest := Split(s[1..], sep);
      if s[0] == sep then [""] + rest
      else [[s[0]] + rest[0]] + rest[1..]
  }

  /** Splitting a piece that holds no separator, followed by anything. */
  lemma {:induction false} SplitPrefix(x: string, t: string, sep: char)
    requires sep !in x
    ensures Split(x + t, sep) == [x + Split(t, sep)[0]] + Split(t, sep)[1..]
  {
    if |x| > 0 {
      assert (x + t)[1..] == x[1..] + t;
      SplitPrefix(x[1..], t, sep);
      assert [x[0]] + (x[1..] + Split(t, sep)[0]) == x + Split(t, sep)[0];
    } else {
      var r := Split(t, sep);
      assert x + t == t;
      assert x + r[0] == r[0];
      assert [r[0]] + r[1..] == r;
    }
  }

  /** Joining pieces free of the separator and splitting again gives the pieces back:
      the group-by clause of a query can be read back as its list of labels. */
  lemma {:induction false} SplitJoin(xs: seq<string>, sep: char)
    requires |xs| >= 1
    requires forall i :: 0 <= i < |xs| ==> sep !in xs[i]
    ensures Split(Join(xs, [sep]), sep) == xs
  {
    if |xs| == 1 {
      SplitPrefix(xs[0], "", sep);
      assert xs[0] + "" == xs[0];
    } else {
      var tail := Join(xs[1..], [sep]);
      SplitJoin(xs[1..], sep);
      assert Join(xs, [sep]) == xs[0] + ([sep] + tail);
      SplitPrefix(xs[0], [sep] + tail, sep);
      assert ([sep] + tail)[1..] == tail;
      assert Split([sep] + tail, sep) == [""] + xs[1..];
      assert xs[0] + "" == xs[0];
      assert [xs[0]] + xs[1..] == xs;
    }
  }

  /** A character found in neither the pieces nor the separator is not in their join. */
  lemma {:induction false} JoinAvoids(xs: seq<string>, sep: string, c: char)
    requires c !in sep
    requires forall i :: 0 <= i < |xs| ==> c !in xs[i]
    ensures c !in Join(xs, sep)
  {
    if |xs| > 1 {
      JoinAvoids(xs[1..], sep, c);
    }
  }

  /** A join starts with its first piece and ends with its last. */
  lemma {:induction false} JoinBounds(xs: seq<string>, sep: string)
    requires |xs| >= 1
    ensures |Join(xs, sep)| >= |xs[0]| && Join(xs, sep)[..|xs[0]|] == xs[0]
    ensures |Join(xs, sep)| >= |xs[|xs| - 1]|
    ensures Join(xs, sep)[|Join(xs, sep)| - |xs[|xs| - 1]|..] == xs[|xs| - 1]
  {
    if |xs| > 1 {
      JoinBounds(xs[1..], sep);
      var j := Join(xs, sep);
      var t := Join(xs[1..], sep);
      assert j == xs[0] + sep + t;
      assert j[|j| - |xs[|xs| - 1]|..] == t[|t| - |xs[|xs| - 1]|..];
    }
  }

  // ---------------------------------------------------------------------------
  // The `%q` verb (strconv.Quote), restricted to the two characters every
  // label value and regular expression in the adapter can carry: `"` and `\`.

  function EscapeChar(c: char): string
  {
    if c == '"' then "\\\"" else if c == '\\' then "\\\\" else [c]
  }

  function Escape(s: string): string
  {
    if |s| == 0 then "" else EscapeChar(s[0]) + Escape(s[1..])
  }

  /** `fmt.Sprintf("%q", s)`. */
  function Quote(s: string): (q: string)
    ensures |q| >= 2 && q[0] == '"' && q[|q| - 1] == '"'
  {
    "\"" + Escape(s) + "\""
  }

  /** Reads back the body of a quoted string; an unescaped `"` or a dangling
      backslash is malformed. */
  function Unescape(b: string): Option<string>
  {
    if |b| == 0 then Some("")
    else if b[0] == '"' then None
    else if b[0] == '\\' then
      if |b| >= 2 && (b[1] == '"' || b[1] == '\\') then
        match Unescape(b[2..])
        case Some(rest) => Some([b[1]] + rest)
        case None => None
      else None
    else
      match Unescape(b[1..])
      case Some(rest) => Some([b[0]] + rest)
      case None => None
  }

  /** `strconv.Unquote` for the strings `Quote` produces. */
  function Unquote(q: string): Option<string>
  {
    if |q| >= 2 && q[0] == '"' && q[|q| - 1] == '"' then Unescape(q[1..|q| - 1]) else None
  }

  lemma {:induction false} UnescapeEscape(s: string)
    ensures Unescape(Escape(s)) == Some(s)
  {
    if |s| > 0 {
      UnescapeEscape(s[1..]);
      var e := Escape(s);
      assert e == EscapeChar(s[0]) + Escape(s[1..]);
      if s[0] == '"' || s[0] == '\\' {
        assert e[2..] == Escape(s[1..]);
      } else {
        assert e[1..] == Escape(s[1..]);
      }
      assert [s[0]] + s[1..] == s;
    }
  }

  /** Quoting loses nothing: `Unquote(Quote(s)) == s`, so `%q` is injective. */
  lemma QuoteRoundTrip(s: string)
    ensures Unquote(Quote(s)) == Some(s)
  {
    var q := Quote(s);
    assert q[1..|q| - 1] == Escape(s);
    UnescapeEscape(s);
  }

  /** A character that quoting never introduces stays absent from a quoted string. */
  lemma {:induction false} EscapeAvoids(s: string, c: char)
    requires c != '"' && c != '\\' && c !in s
    ensures c !in Escape(s)
  {
    if |s| > 0 {
      EscapeAvoids(s[1..], c);
      assert Escape(s) == EscapeChar(s[0]) + Escape(s[1..]);
    }
  }

  lemma QuoteAvoids(s: string, c: char)
    requires c != '"' && c != '\\' && c !in s
    ensures c !in Quote(s)
  {
    EscapeAvoids(s, c);
  }

  lemma QuoteInjective(s: string, t: string)
    requires Quote(s) == Quote(t)
    ensures s == t
  {
    QuoteRoundTrip(s);
    QuoteRoundTrip(t);
  }

  // ---------------------------------------------------------------------------
  // strings.NewReplacer(".", "_", "-", "_")

  /** The group-name sanitizer: each `.` and each `-` becomes `_`. */
  function SanitizeGroup(g: string): (r: string)
    ensures |r| == |g|
    ensures forall i :: 0 <= i < |g| ==> r[i] == (if g[i] == '.' || g[i] == '-' then '_' else g[i])
  {
    if |g| == 0 then ""
    else [if g[0] == '.' || g[0] == '-' then '_' else g[0]] + SanitizeGroup(g[1..])
  }

  /** A sanitized name holds no `.` and no `-`, and sanitizing it again changes nothing. */
  lemma SanitizeGroupIdempotent(g: string)
    ensures '.' !in SanitizeGroup(g) && '-' !in SanitizeGroup(g)
    ensures SanitizeGroup(SanitizeGroup(g)) == SanitizeGroup(g)
  {
    var r := SanitizeGroup(g);
    assert forall i :: 0 <= i < |r| ==> r[i] != '.' && r[i] != '-';
  }
}
