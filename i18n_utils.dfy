/**
 * Message suppliers for internationalised text. A supplier yields its message
 * when it is read, so it is modelled as a function of the moment w of the read.
 */
module I18nUtils {
  import opened Lang
  import opened StringPools
  import CommonUtils

  /** java.util.function.Supplier<String>, read at w. */
  type Supplier<!W> = W -> Nullable<string>

  /** I18nUtils.load: the identity on suppliers. */
  function Load<W>(): Supplier<W> -> Supplier<W> {
    s => s
  }

  /** Loading hands back the very supplier it is given. */
  lemma LoadIsIdentity<W>(s: Supplier<W>)
    ensures Load()(s) == s
  {
  }

  /** Each argument rendered by CommonUtils.toString. */
  function Renderings(args: seq<Nullable<Object>>, objectToString: Object -> string): (r: seq<Nullable<string>>)
    ensures |r| == |args|
    ensures forall i :: 0 <= i < |args| ==> r[i] == CommonUtils.ToString(args[i], objectToString)
  {
    CommonUtils.Rendered(args, a => CommonUtils.ToString(a, objectToString))
  }

  /** What one read of the supplier built by args yields: the message read at w, then the fill. */
  function ArgsMessage<W>(pool: StringPool, args: Nullable<seq<Nullable<Object>>>, objectToString: Object -> string,
                          supplier: Supplier<W>, w: W): Nullable<string>
  {
    if args.NonNull? && |args.value| > 0 then
      CommonUtils.Fill(supplier(w), pool.leftBrace + pool.rightBrace, Renderings(args.value, objectToString))
    else supplier(w)
  }

  /**
   * I18nUtils.args: a function from suppliers to suppliers. The wrapped
   * supplier is read when the new one is read, not when args is called.
   */
  function Args<W>(pool: StringPool, args: Nullable<seq<Nullable<Object>>>, objectToString: Object -> string)
    : Supplier<W> -> Supplier<W>
  {
    s => (w => ArgsMessage(pool, args, objectToString, s, w))
  }

  /** The body of the supplier built by args, run when it is read at w: the supplier's message, then one replaceOnce per argument. */
  method GetArgs<W>(pool: StringPool, args: Nullable<seq<Nullable<Object>>>, objectToString: Object -> string,
                    supplier: Supplier<W>, w: W)
    returns (message: Nullable<string>)
    ensures message == Args(pool, args, objectToString)(supplier)(w)
    ensures args.Null? || args.value == [] ==> message == supplier(w)
  {
    message := supplier(w);
    if args.NonNull? && |args.value| > 0 {
      var xs := args.value;
      var placeholder := pool.leftBrace + pool.rightBrace;
      ghost var renders := Renderings(xs, objectToString);
      var i := 0;
      while i < |xs|
        invariant 0 <= i <= |xs|
        invariant CommonUtils.Fill(message, placeholder, renders[i..]) == CommonUtils.Fill(supplier(w), placeholder, renders)
      {
        assert renders[i..][1..] == renders[i + 1..];
        message := CommonUtils.ReplaceOnce(message, placeholder, CommonUtils.ToString(xs[i], objectToString));
        i := i + 1;
      }
    }
  }

  /** Without arguments the new supplier yields what the wrapped one yields at the same read. */
  lemma NoArgumentsKeepMessage<W>(pool: StringPool, args: Nullable<seq<Nullable<Object>>>, objectToString: Object -> string,
                                  s: Supplier<W>, w: W)
    requires args.Null? || args.value == []
    ensures Args(pool, args, objectToString)(s)(w) == s(w)
  {
  }

  /** A null argument is skipped: it fills no placeholder. */
  lemma NullArgumentSkipped<W>(pool: StringPool, xs: seq<Nullable<Object>>, ys: seq<Nullable<Object>>,
                               objectToString: Object -> string, supplier: Supplier<W>, w: W)
    requires |xs + ys| > 0
    ensures ArgsMessage(pool, NonNull(xs + [Null] + ys), objectToString, supplier, w)
         == ArgsMessage(pool, NonNull(xs + ys), objectToString, supplier, w)
  {
    var rx, ry := Renderings(xs, objectToString), Renderings(ys, objectToString);
    assert Renderings(xs + [Null] + ys, objectToString) == rx + [Null] + ry;
    assert Renderings(xs + ys, objectToString) == rx + ry;
    CommonUtils.NullReplacementSkipped(supplier(w), pool.leftBrace + pool.rightBrace, rx, ry);
  }

  /**
   * With "{" and "}" as the braces, String arguments that are non-empty and
   * brace-free fill the message's placeholders in order.
   */
  lemma StringArgumentsFillInOrder<W>(pool: StringPool, segments: seq<string>, strs: seq<string>,
                                      objectToString: Object -> string, supplier: Supplier<W>, w: W)
    requires pool.leftBrace == "{" && pool.rightBrace == "}"
    requires |segments| > 0 && forall i :: 0 <= i < |segments| ==> CommonUtils.NoPlaceholder(segments[i])
    requires supplier(w) == NonNull(CommonUtils.Join(segments))
    requires |strs| > 0 && forall i :: 0 <= i < |strs| ==> CommonUtils.Separating(strs[i])
    ensures ArgsMessage(pool, NonNull(StrArgs(strs)), objectToString, supplier, w)
         == NonNull(CommonUtils.Filled(segments, strs))
  {
    var rs := Renderings(StrArgs(strs), objectToString);
    assert rs == CommonUtils.NonNulls(strs);
    assert pool.leftBrace + pool.rightBrace == CommonUtils.ExpressionBrace;
    assert ArgsMessage(pool, NonNull(StrArgs(strs)), objectToString, supplier, w)
        == CommonUtils.FillPlaceholders(supplier(w), rs);
    CommonUtils.FillInOrder(segments, strs);
  }

  /** String arguments. */
  function StrArgs(strs: seq<string>): (r: seq<Nullable<Object>>)
    ensures |r| == |strs|
    ensures forall i :: 0 <= i < |strs| ==> r[i] == NonNull(Str(strs[i]))
  {
    if strs == [] then [] else [NonNull(Str(strs[0]))] + StrArgs(strs[1..])
  }

  /** The result of a read depends on the supplier only through what it yields at that read. */
  lemma ReadAtGet<W>(pool: StringPool, args: Nullable<seq<Nullable<Object>>>, objectToString: Object -> string,
                     s1: Supplier<W>, w1: W, s2: Supplier<W>, w2: W)
    requires s1(w1) == s2(w2)
    ensures Args(pool, args, objectToString)(s1)(w1) == Args(pool, args, objectToString)(s2)(w2)
  {
  }
}
