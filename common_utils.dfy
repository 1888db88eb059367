/**
 * String helpers: filling "{}" placeholders from an argument array, and the
 * null-preserving toString. StringUtils.replaceOnce is given its documented
 * first-occurrence semantics; ArrayUtils.toString and Object.toString are
 * parameters.
 */
module CommonUtils {
  import opened Lang
  import opened Streams

  const ExpressionBrace := "{}"

  predicate OccursAt(text: string, search: string, j: int) {
    0 <= j && j + |search| <= |text| && text[j..j + |search|] == search
  }

  /** The first occurrence of search in text at or after from. */
  function IndexFrom(text: string, search: string, from: nat): (r: Option<nat>)
    requires from <= |text|
    decreases |text| - from
    ensures r.Some? ==> from <= r.value && OccursAt(text, search, r.value)
    ensures r.Some? ==> forall j :: from <= j < r.value ==> !OccursAt(text, search, j)
    ensures r.None? ==> forall j :: from <= j ==> !OccursAt(text, search, j)
  {
    if from + |search| > |text| then None
    else if text[from..from + |search|] == search then Some(from)
    else IndexFrom(text, search, from + 1)
  }

  /** String.indexOf: the first occurrence of search in text. */
  function IndexOf(text: string, search: string): Option<nat> {
    IndexFrom(text, search, 0)
  }

  /**
   * StringUtils.replaceOnce: a null or empty text, an empty search string or a
   * null replacement leave the text as it is; otherwise the first occurrence of
   * the search string, if any, is replaced.
   */
  function ReplaceOnce(text: Nullable<string>, search: string, replacement: Nullable<string>): Nullable<string> {
    if text.Null? || |text.value| == 0 || |search| == 0 || replacement.Null? then text
    else
      match IndexOf(text.value, search)
      case None => text
      case Some(k) => NonNull(text.value[..k] + replacement.value + text.value[k + |search|..])
  }

  /**
   * The left-to-right fill: each replacement in turn takes the first
   * occurrence of the placeholder in the string as it is by then.
   */
  function Fill(text: Nullable<string>, placeholder: string, replacements: seq<Nullable<string>>): Nullable<string>
    decreases |replacements|
  {
    if replacements == [] then text
    else Fill(ReplaceOnce(text, placeholder, replacements[0]), placeholder, replacements[1..])
  }

  /** The fill with a "{}" placeholder. */
  function FillPlaceholders(text: Nullable<string>, replacements: seq<Nullable<string>>): Nullable<string> {
    Fill(text, ExpressionBrace, replacements)
  }

  /** Filling with xs then ys is filling with xs + ys. */
  lemma {:induction false} FillAppend(text: Nullable<string>, placeholder: string, xs: seq<Nullable<string>>, ys: seq<Nullable<string>>)
    ensures Fill(text, placeholder, xs + ys) == Fill(Fill(text, placeholder, xs), placeholder, ys)
    decreases |xs|
  {
    if xs != [] {
      assert (xs + ys)[1..] == xs[1..] + ys;
      FillAppend(ReplaceOnce(text, placeholder, xs[0]), placeholder, xs[1..], ys);
    } else {
      assert xs + ys == ys;
    }
  }

  /** A null replacement is skipped: the fill goes on as if it were absent. */
  lemma NullReplacementSkipped(text: Nullable<string>, placeholder: string, xs: seq<Nullable<string>>, ys: seq<Nullable<string>>)
    ensures Fill(text, placeholder, xs + [Null] + ys) == Fill(text, placeholder, xs + ys)
  {
    FillAppend(text, placeholder, xs + [Null], ys);
    FillAppend(text, placeholder, xs, [Null]);
    FillAppend(text, placeholder, xs, ys);
  }

  /** Each argument rendered to text. */
  function Rendered(args: seq<Nullable<Object>>, render: Nullable<Object> -> Nullable<string>): (r: seq<Nullable<string>>)
    ensures |r| == |args|
    ensures forall i :: 0 <= i < |args| ==> r[i] == render(args[i])
  {
    MapSeq(args, render)
  }

  /**
   * CommonUtils.arrayFormat. Each argument is rendered by ArrayUtils.toString
   * (here arrayToString, which never yields null) and replaces the first "{}"
   * of the current string.
   */
  method ArrayFormat(messagePattern: Nullable<string>, argArray: Nullable<seq<Nullable<Object>>>,
                     arrayToString: Nullable<Object> -> string)
    returns (r: Nullable<string>)
    ensures argArray.Null? || argArray.value == [] ==> r == messagePattern
    ensures argArray.NonNull? ==>
      r == FillPlaceholders(messagePattern, Rendered(argArray.value, a => NonNull(arrayToString(a))))
  {
    r := messagePattern;
    if argArray.NonNull? && |argArray.value| > 0 {
      var args := argArray.value;
      ghost var renders := Rendered(args, a => NonNull(arrayToString(a)));
      var i := 0;
      while i < |args|
        invariant 0 <= i <= |args|
        invariant FillPlaceholders(r, renders[i..]) == FillPlaceholders(messagePattern, renders)
      {
        assert renders[i..][1..] == renders[i + 1..];
        r := ReplaceOnce(r, ExpressionBrace, NonNull(arrayToString(args[i])));
        i := i + 1;
      }
    }
  }

  /** CommonUtils.toString: null stays null, a String is itself, anything else uses its toString. */
  function ToString(obj: Nullable<Object>, objectToString: Object -> string): (r: Nullable<string>)
    ensures r.Null? <==> obj.Null?
    ensures obj.NonNull? && obj.value.Str? ==> r == NonNull(obj.value.chars)
    ensures obj.NonNull? && !obj.value.Str? ==> r == NonNull(objectToString(obj.value))
  {
    match obj
    case Null => Null
    case NonNull(Str(s)) => NonNull(s)
    case NonNull(o) => NonNull(objectToString(o))
  }

  // ---------------------------------------------------------------------------
  // What the fill does

  predicate PlaceholderAt(s: string, j: int) {
    0 <= j < |s| - 1 && s[j] == '{' && s[j + 1] == '}'
  }

  predicate NoPlaceholder(s: string) {
    forall j :: 0 <= j < |s| ==> !PlaceholderAt(s, j)
  }

  predicate BraceFree(s: string) {
    forall i :: 0 <= i < |s| ==> s[i] != '{' && s[i] != '}'
  }

  /** A rendering that cannot join with its neighbours into a new placeholder. */
  predicate Separating(r: string) {
    |r| > 0 && BraceFree(r)
  }

  function NonNulls(rs: seq<string>): (r: seq<Nullable<string>>)
    ensures |r| == |rs|
    ensures forall i :: 0 <= i < |rs| ==> r[i] == NonNull(rs[i])
  {
    if rs == [] then [] else [NonNull(rs[0])] + NonNulls(rs[1..])
  }

  /** A prefix with no placeholder that cannot start one with what follows it. */
  predicate SafePrefix(p: string) {
    NoPlaceholder(p) && (|p| == 0 || p[|p| - 1] != '{')
  }

  lemma OccursAtBrace(s: string, j: int)
    ensures OccursAt(s, ExpressionBrace, j) <==> PlaceholderAt(s, j)
  {
    if PlaceholderAt(s, j) {
      assert s[j..j + 2] == ExpressionBrace;
    }
    if OccursAt(s, ExpressionBrace, j) {
      assert s[j..j + 2][0] == s[j] && s[j..j + 2][1] == s[j + 1];
    }
  }

  /** Two placeholder-free strings stay placeholder-free when joined, unless they meet as "{" and "}". */
  lemma JoinNoPlaceholder(a: string, b: string)
    requires NoPlaceholder(a) && NoPlaceholder(b)
    requires |a| == 0 || |b| == 0 || a[|a| - 1] != '{' || b[0] != '}'
    ensures NoPlaceholder(a + b)
  {
    forall j | PlaceholderAt(a + b, j)
      ensures false
    {
      if j + 1 < |a| {
        assert PlaceholderAt(a, j);
      } else if j >= |a| {
        assert PlaceholderAt(b, j - |a|);
      }
    }
  }

  /** A string without "{}" is never changed by a replaceOnce of "{}". */
  lemma ReplaceWithoutPlaceholder(t: Nullable<string>, r: Nullable<string>)
    requires t.NonNull? ==> NoPlaceholder(t.value)
    ensures ReplaceOnce(t, ExpressionBrace, r) == t
  {
    if t.NonNull? && |t.value| > 0 && r.NonNull? {
      var k := IndexOf(t.value, ExpressionBrace);
      if k.Some? {
        OccursAtBrace(t.value, k.value);
      }
    }
  }

  /** replaceOnce of "{}" replaces the first placeholder: the one after a placeholder-free x. */
  lemma ReplaceFirstPlaceholder(x: string, y: string, r: string)
    requires NoPlaceholder(x)
    ensures ReplaceOnce(NonNull(x + ExpressionBrace + y), ExpressionBrace, NonNull(r)) == NonNull(x + r + y)
  {
    var s := x + ExpressionBrace + y;
    OccursAtBrace(s, |x|);
    forall j | 0 <= j < |x|
      ensures !OccursAt(s, ExpressionBrace, j)
    {
      OccursAtBrace(s, j);
      if j + 1 < |x| {
        assert !PlaceholderAt(x, j);
        assert s[j] == x[j] && s[j + 1] == x[j + 1];
      } else {
        assert s[j + 1] == '{';
      }
    }
    var k := IndexOf(s, ExpressionBrace);
    assert k == Some(|x|);
    assert s[..|x|] == x;
    assert s[|x| + 2..] == y;
  }

  /** A string without "{}" comes out of the fill unchanged, whatever the arguments. */
  lemma {:induction false} FillWithoutPlaceholder(t: Nullable<string>, rs: seq<Nullable<string>>)
    requires t.NonNull? ==> NoPlaceholder(t.value)
    ensures FillPlaceholders(t, rs) == t
  {
    if rs != [] {
      ReplaceWithoutPlaceholder(t, rs[0]);
      FillWithoutPlaceholder(t, rs[1..]);
    }
  }

  /** segments[0] + "{}" + segments[1] + ... + "{}" + segments[n-1] */
  function Join(segments: seq<string>): string
    requires |segments| > 0
  {
    if |segments| == 1 then segments[0] else segments[0] + ExpressionBrace + Join(segments[1..])
  }

  /**
   * The expected fill of Join(segments): the i-th placeholder replaced by the
   * i-th argument while both last; surplus arguments are ignored and surplus
   * placeholders stay.
   */
  function Filled(segments: seq<string>, rs: seq<string>): string
    requires |segments| > 0
  {
    if |segments| == 1 || rs == [] then Join(segments)
    else segments[0] + rs[0] + Filled(segments[1..], rs[1..])
  }

  /**
   * When every rendered argument is non-empty and brace-free, the fill puts the
   * arguments into the pattern's placeholders in order: argument i into
   * placeholder i, extra arguments ignored, extra placeholders left in place.
   */
  lemma {:induction false} FillSegments(prefix: string, segments: seq<string>, rs: seq<string>)
    requires SafePrefix(prefix)
    requires |segments| > 0 && forall i :: 0 <= i < |segments| ==> NoPlaceholder(segments[i])
    requires forall i :: 0 <= i < |rs| ==> Separating(rs[i])
    ensures FillPlaceholders(NonNull(prefix + Join(segments)), NonNulls(rs)) == NonNull(prefix + Filled(segments, rs))
    decreases |segments|
  {
    if |segments| == 1 {
      JoinNoPlaceholder(prefix, segments[0]);
      FillWithoutPlaceholder(NonNull(prefix + segments[0]), NonNulls(rs));
    } else if rs != [] {
      var seg, rest, r := segments[0], segments[1..], rs[0];
      var p := prefix + seg + r;
      FillStep(prefix, seg, Join(rest), r);
      calc {
        FillPlaceholders(NonNull(prefix + Join(segments)), NonNulls(rs));
        { assert prefix + Join(segments) == prefix + seg + ExpressionBrace + Join(rest); }
        FillPlaceholders(NonNull(prefix + seg + ExpressionBrace + Join(rest)), NonNulls(rs));
        { assert NonNulls(rs)[1..] == NonNulls(rs[1..]); }
        FillPlaceholders(NonNull(p + Join(rest)), NonNulls(rs[1..]));
        { FillSegments(p, rest, rs[1..]); }
        NonNull(p + Filled(rest, rs[1..]));
        { assert prefix + Filled(segments, rs) == p + Filled(rest, rs[1..]); }
        NonNull(prefix + Filled(segments, rs));
      }
    }
  }

  /** One step of the fill: the placeholder after prefix + segment takes r, and what precedes the rest stays safe. */
  lemma FillStep(prefix: string, segment: string, rest: string, r: string)
    requires SafePrefix(prefix) && NoPlaceholder(segment) && Separating(r)
    ensures ReplaceOnce(NonNull(prefix + segment + ExpressionBrace + rest), ExpressionBrace, NonNull(r))
         == NonNull(prefix + segment + r + rest)
    ensures SafePrefix(prefix + segment + r)
  {
    var x := prefix + segment;
    JoinNoPlaceholder(prefix, segment);
    ReplaceFirstPlaceholder(x, rest, r);
    assert r[0] != '}';
    JoinNoPlaceholder(x, r);
    var p := x + r;
    assert p[|p| - 1] == r[|r| - 1];
  }

  /** With the pattern's own placeholders: Join(segments) filled by rs is Filled(segments, rs). */
  lemma FillInOrder(segments: seq<string>, rs: seq<string>)
    requires |segments| > 0 && forall i :: 0 <= i < |segments| ==> NoPlaceholder(segments[i])
    requires forall i :: 0 <= i < |rs| ==> Separating(rs[i])
    ensures FillPlaceholders(NonNull(Join(segments)), NonNulls(rs)) == NonNull(Filled(segments, rs))
  {
    FillSegments("", segments, rs);
    assert "" + Join(segments) == Join(segments);
    assert "" + Filled(segments, rs) == Filled(segments, rs);
  }

  /**
   * The search restarts at the start of the string: a rendered argument that
   * is itself "{}" is filled by the next argument, and the pattern's second
   * placeholder stays.
   */
  lemma PlaceholderInArgumentIsFilledNext()
    ensures FillPlaceholders(NonNull("{} {}"), [NonNull("{}"), NonNull("b")]) == NonNull("b {}")
  {
    assert NoPlaceholder("");
    ReplaceFirstPlaceholder("", " {}", "{}");
    ReplaceFirstPlaceholder("", " {}", "b");
    assert "" + ExpressionBrace + " {}" == "{} {}";
    assert "" + "b" + " {}" == "b {}";
  }

  /** An empty rendering can join a "{" and a "}" of the pattern into a new placeholder. */
  lemma EmptyRenderingMakesPlaceholder()
    ensures FillPlaceholders(NonNull("{{}}"), [NonNull("")]) == NonNull("{}")
  {
    assert NoPlaceholder("{");
    ReplaceFirstPlaceholder("{", "}", "");
    assert "{" + ExpressionBrace + "}" == "{{}}";
    assert "{" + "" + "}" == "{}";
  }
}
