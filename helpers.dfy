/** The selector-string builders of the backend client: the four label-matcher
    forms `l="v"`, `l!="v"`, `l=~"e"`, `l!~"e"`, the `__name__` shorthands, and
    `name{m1,...,mn}` series selectors. Each builder is paired with a parser that
    reads its output back. */
module Helpers {
  import opened Wrappers
  import opened Model
  import opened Text

  datatype MatchOp = Equal | NotEqual | RegexMatch | RegexNoMatch

  /** A label matcher, as a parsed value. */
  datatype Matcher = Matcher(lbl: LabelName, op: MatchOp, value: string)

  function OpText(op: MatchOp): string
  {
    match op
    case Equal => "="
    case NotEqual => "!="
    case RegexMatch => "=~"
    case RegexNoMatch => "!~"
  }

  /** The text of a matcher: the label, the operator, and the quoted value. */
  function Render(m: Matcher): string
  {
    m.lbl + OpText(m.op) + Quote(m.value)
  }

  /** A label name in which no operator can start (Prometheus label names never contain `=` or `!`). */
  predicate PlainLabel(l: LabelName)
  {
    forall i :: 0 <= i < |l| ==> l[i] != '=' && l[i] != '!'
  }

  /** Index of the first `=` or `!`, or the length when there is none. */
  function OpIndex(s: string): (i: nat)
    ensures i <= |s|
  {
    if |s| == 0 then 0
    else if s[0] == '=' || s[0] == '!' then 0
    else 1 + OpIndex(s[1..])
  }

  /** Reads the operator at the start of `t`, and what follows it. */
  function ParseOp(t: string): Option<(MatchOp, string)>
  {
    if |t| >= 2 && t[..2] == "=~" then Some((RegexMatch, t[2..]))
    else if |t| >= 2 && t[..2] == "!=" then Some((NotEqual, t[2..]))
    else if |t| >= 2 && t[..2] == "!~" then Some((RegexNoMatch, t[2..]))
    else if |t| >= 1 && t[0] == '=' then Some((Equal, t[1..]))
    else None
  }

  /** Reads a label matcher back from its text. */
  function ParseMatcher(s: string): Option<Matcher>
  {
    var i := OpIndex(s);
    match ParseOp(s[i..])
    case None => None
    case Some((op, rest)) =>
      match Unquote(rest)
      case None => None
      case Some(v) => Some(Matcher(s[..i], op, v))
  }

  lemma {:induction false} OpIndexAfterPlain(l: string, t: string)
    requires PlainLabel(l)
    ensures OpIndex(l + t) == |l| + OpIndex(t)
  {
    if |l| > 0 {
      assert (l + t)[1..] == l[1..] + t;
      OpIndexAfterPlain(l[1..], t);
    } else {
      assert l + t == t;
    }
  }

  lemma ParseOpText(op: MatchOp, v: string)
    ensures ParseOp(OpText(op) + Quote(v)) == Some((op, Quote(v)))
  {
    var q := Quote(v);
    var t := OpText(op) + q;
    match op
    case Equal => assert t[1] == '"' && t[1..] == q;
    case NotEqual => assert t[..2] == "!=" && t[2..] == q;
    case RegexMatch => assert t[..2] == "=~" && t[2..] == q;
    case RegexNoMatch => assert t[..2] == "!~" && t[2..] == q;
  }

  /** Every matcher over a plain label reads back as itself, so the text of a
      matcher determines its label, operator and value. */
  lemma ParseRender(m: Matcher)
    requires PlainLabel(m.lbl)
    ensures ParseMatcher(Render(m)) == Some(m)
  {
    var t := OpText(m.op) + Quote(m.value);
    var s := Render(m);
    assert s == m.lbl + t;
    OpIndexAfterPlain(m.lbl, t);
    assert OpIndex(t) == 0;
    assert s[..|m.lbl|] == m.lbl && s[|m.lbl|..] == t;
    ParseOpText(m.op, m.value);
    QuoteRoundTrip(m.value);
  }

  /** `l!="v"`. */
  function LabelNeq(lbl: LabelName, value: string): (r: string)
    ensures |r| > |lbl| && r[..|lbl|] == lbl
  {
    lbl + "!=" + Quote(value)
  }

  /** `l="v"`. */
  function LabelEq(lbl: LabelName, value: string): (r: string)
    ensures |r| > |lbl| && r[..|lbl|] == lbl
  {
    lbl + "=" + Quote(value)
  }

  /** `l=~"e"`. */
  function LabelMatches(lbl: LabelName, expr: string): (r: string)
    ensures |r| > |lbl| && r[..|lbl|] == lbl
  {
    lbl + "=~" + Quote(expr)
  }

  /** `l!~"e"`. */
  function LabelNotMatches(lbl: LabelName, expr: string): (r: string)
    ensures |r| > |lbl| && r[..|lbl|] == lbl
  {
    lbl + "!~" + Quote(expr)
  }

  /** A regex matcher on the metric name. */
  function NameMatches(expr: string): (r: string)
    ensures |r| > |MetricNameLabel| && r[..|MetricNameLabel|] == MetricNameLabel
  {
    LabelMatches(MetricNameLabel, expr)
  }

  /** A negated regex matcher on the metric name. */
  function NameNotMatches(expr: string): (r: string)
    ensures |r| > |MetricNameLabel| && r[..|MetricNameLabel|] == MetricNameLabel
  {
    LabelNotMatches(MetricNameLabel, expr)
  }

  /** Each builder's text reads back as the matcher it was asked for: the
      label, the builder's operator, and the value. */
  lemma BuildersParse(lbl: LabelName, v: string)
    requires PlainLabel(lbl)
    ensures ParseMatcher(LabelEq(lbl, v)) == Some(Matcher(lbl, Equal, v))
    ensures ParseMatcher(LabelNeq(lbl, v)) == Some(Matcher(lbl, NotEqual, v))
    ensures ParseMatcher(LabelMatches(lbl, v)) == Some(Matcher(lbl, RegexMatch, v))
    ensures ParseMatcher(LabelNotMatches(lbl, v)) == Some(Matcher(lbl, RegexNoMatch, v))
  {
    assert LabelEq(lbl, v) == Render(Matcher(lbl, Equal, v));
    ParseRender(Matcher(lbl, Equal, v));
    assert LabelNeq(lbl, v) == Render(Matcher(lbl, NotEqual, v));
    ParseRender(Matcher(lbl, NotEqual, v));
    assert LabelMatches(lbl, v) == Render(Matcher(lbl, RegexMatch, v));
    ParseRender(Matcher(lbl, RegexMatch, v));
    assert LabelNotMatches(lbl, v) == Render(Matcher(lbl, RegexNoMatch, v));
    ParseRender(Matcher(lbl, RegexNoMatch, v));
  }

  /** The metric-name shorthands are the regex matchers on `__name__`. */
  lemma NameBuildersParse(expr: string)
    ensures NameMatches(expr) == LabelMatches(MetricNameLabel, expr)
    ensures NameNotMatches(expr) == LabelNotMatches(MetricNameLabel, expr)
    ensures ParseMatcher(NameMatches(expr)) == Some(Matcher(MetricNameLabel, RegexMatch, expr))
    ensures ParseMatcher(NameNotMatches(expr)) == Some(Matcher(MetricNameLabel, RegexNoMatch, expr))
  {
    BuildersParse(MetricNameLabel, expr);
  }

  /** A character that neither the label, the value, an operator nor quoting
      introduces does not occur in any builder's text. */
  lemma BuildersAvoid(lbl: LabelName, v: string, c: char)
    requires c !in lbl && c !in v
    requires c !in "=!~\"\\"
    ensures c !in LabelEq(lbl, v) && c !in LabelNeq(lbl, v)
    ensures c !in LabelMatches(lbl, v) && c !in LabelNotMatches(lbl, v)
  {
    QuoteAvoids(v, c);
  }

  /** The four builders never coincide: different operators or different
      arguments give different text. */
  lemma MatchersDistinct(l: LabelName, v: string, l': LabelName, v': string)
    requires PlainLabel(l) && PlainLabel(l')
    ensures LabelEq(l, v) == LabelEq(l', v') ==> l == l' && v == v'
    ensures LabelEq(l, v) != LabelNeq(l', v') && LabelEq(l, v) != LabelMatches(l', v')
    ensures LabelEq(l, v) != LabelNotMatches(l', v') && LabelNeq(l, v) != LabelMatches(l', v')
    ensures LabelNeq(l, v) != LabelNotMatches(l', v') && LabelMatches(l, v) != LabelNotMatches(l', v')
  {
    BuildersParse(l, v);
    BuildersParse(l', v');
  }

  /** A series selector: the name alone, or the name followed by the braced,
      comma-joined label expressions. */
  function MatchSeries(name: string, labelExpressions: seq<string>): (r: Selector)
    ensures |r| >= |name| && r[..|name|] == name
    ensures |labelExpressions| == 0 <==> |r| == |name|
    ensures |labelExpressions| > 0 ==> r[|name|] == '{' && r[|r| - 1] == '}'
  {
    if |labelExpressions| == 0 then name
    else name + "{" + Join(labelExpressions, ",") + "}"
  }

  /** Index of the first occurrence of `c`, or the length when there is none. */
  function IndexOf(s: string, c: char): (i: nat)
    ensures i <= |s|
    ensures forall j :: 0 <= j < i ==> s[j] != c
    ensures i < |s| ==> s[i] == c
  {
    if |s| == 0 then 0 else if s[0] == c then 0 else 1 + IndexOf(s[1..], c)
  }

  /** Reads a series selector back into its name and label expressions. */
  function ParseSelector(sel: Selector): (string, seq<string>)
  {
    var i := IndexOf(sel, '{');
    if i < |sel| && |sel| >= i + 2 && sel[|sel| - 1] == '}' then
      (sel[..i], Split(sel[i + 1..|sel| - 1], ','))
    else (sel, [])
  }

  /** A selector reads back as the name and expressions it was built from, when
      the name holds no `{` and no expression holds a comma. */
  lemma SelectorRoundTrip(name: string, exprs: seq<string>)
    requires '{' !in name
    requires forall i :: 0 <= i < |exprs| ==> ',' !in exprs[i]
    ensures ParseSelector(MatchSeries(name, exprs)) == (name, exprs)
  {
    var sel := MatchSeries(name, exprs);
    if |exprs| > 0 {
      var body := Join(exprs, ",");
      assert sel == name + ("{" + body + "}");
      assert sel[|name|] == '{';
      assert forall j :: 0 <= j < |name| ==> sel[j] == name[j];
      assert IndexOf(sel, '{') == |name|;
      assert sel[|name| + 1..|sel| - 1] == body;
      assert sel[..|name|] == name;
      SplitJoin(exprs, ',');
    }
  }
}
