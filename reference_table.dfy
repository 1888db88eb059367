/**
 * ReferenceTable keeps two Boolean display options in one Integer column,
 * STYLE, as bits: bit 0 says the source is a view, bit 1 that the form is
 * laid out vertically. The word is a Java int, so 32 bits.
 */
module ReferenceTables {

  const STYLE_VIEW: bv32 := 1 << 0
  const STYLE_VERTICAL: bv32 := 1 << 1

  /** (style & STYLE_VIEW) == STYLE_VIEW */
  predicate IsView(style: bv32) {
    style & STYLE_VIEW == STYLE_VIEW
  }

  /** (style & STYLE_VERTICAL) == STYLE_VERTICAL */
  predicate IsVertical(style: bv32) {
    style & STYLE_VERTICAL == STYLE_VERTICAL
  }

  lemma SetViewBit(style: bv32)
    ensures IsView(style | STYLE_VIEW) && (style | STYLE_VIEW) & !STYLE_VIEW == style & !STYLE_VIEW
  {
  }

  lemma ClearViewBit(style: bv32)
    ensures !IsView(style & !STYLE_VIEW) && (style & !STYLE_VIEW) & !STYLE_VIEW == style & !STYLE_VIEW
  {
  }

  lemma SetVerticalBit(style: bv32)
    ensures IsVertical(style | STYLE_VERTICAL) && (style | STYLE_VERTICAL) & !STYLE_VERTICAL == style & !STYLE_VERTICAL
  {
  }

  lemma ClearVerticalBit(style: bv32)
    ensures !IsVertical(style & !STYLE_VERTICAL) && (style & !STYLE_VERTICAL) & !STYLE_VERTICAL == style & !STYLE_VERTICAL
  {
  }

  /** setView applied to a style word (`|=` or `&= ~`): the view bit becomes `view`, every other bit stays. */
  function WithView(style: bv32, view: bool): (r: bv32)
    ensures IsView(r) == view
    ensures r & !STYLE_VIEW == style & !STYLE_VIEW
  {
    if view then SetViewBit(style); style | STYLE_VIEW
    else ClearViewBit(style); style & !STYLE_VIEW
  }

  /** setVertical applied to a style word: the vertical bit becomes `vertical`, every other bit stays. */
  function WithVertical(style: bv32, vertical: bool): (r: bv32)
    ensures IsVertical(r) == vertical
    ensures r & !STYLE_VERTICAL == style & !STYLE_VERTICAL
  {
    if vertical then SetVerticalBit(style); style | STYLE_VERTICAL
    else ClearVerticalBit(style); style & !STYLE_VERTICAL
  }

  /** Two words that agree outside the view bit read the same vertical bit, and the other way round. */
  lemma OtherBitKept(s: bv32, t: bv32)
    ensures t & !STYLE_VIEW == s & !STYLE_VIEW ==> IsVertical(t) == IsVertical(s)
    ensures t & !STYLE_VERTICAL == s & !STYLE_VERTICAL ==> IsView(t) == IsView(s)
  {
    assert (t & !STYLE_VIEW) & STYLE_VERTICAL == t & STYLE_VERTICAL;
    assert (s & !STYLE_VIEW) & STYLE_VERTICAL == s & STYLE_VERTICAL;
    assert (t & !STYLE_VERTICAL) & STYLE_VIEW == t & STYLE_VIEW;
    assert (s & !STYLE_VERTICAL) & STYLE_VIEW == s & STYLE_VIEW;
  }

  /** A word is fixed by one bit and the bits outside it. */
  lemma SameWord(s: bv32, t: bv32)
    ensures t & !STYLE_VIEW == s & !STYLE_VIEW && IsView(t) == IsView(s) ==> t == s
    ensures t & !STYLE_VERTICAL == s & !STYLE_VERTICAL && IsVertical(t) == IsVertical(s) ==> t == s
  {
  }

  /** Setting the view bit leaves the vertical reading alone, and the other way round. */
  lemma SettersAreIndependent(style: bv32, b: bool)
    ensures IsVertical(WithView(style, b)) == IsVertical(style)
    ensures IsView(WithVertical(style, b)) == IsView(style)
  {
    OtherBitKept(style, WithView(style, b));
    OtherBitKept(style, WithVertical(style, b));
  }

  /** Of two calls of the same setter, the later wins; so each setter is idempotent. */
  lemma LastSetterWins(style: bv32, a: bool, b: bool)
    ensures WithView(WithView(style, a), b) == WithView(style, b)
    ensures WithVertical(WithVertical(style, a), b) == WithVertical(style, b)
  {
    SameWord(WithView(style, b), WithView(WithView(style, a), b));
    SameWord(WithVertical(style, b), WithVertical(WithVertical(style, a), b));
  }

  /** Both setters are idempotent. */
  lemma SettersIdempotent(style: bv32, b: bool)
    ensures WithView(WithView(style, b), b) == WithView(style, b)
    ensures WithVertical(WithVertical(style, b), b) == WithVertical(style, b)
  {
    LastSetterWins(style, b, b);
  }

  /** The default style word is vertical and not a view. */
  lemma DefaultStyle()
    ensures IsVertical(STYLE_VERTICAL) && !IsView(STYLE_VERTICAL)
  {
  }

  class ReferenceTable {
    /** The STYLE column. */
    var style: bv32

    constructor()
      ensures style == STYLE_VERTICAL
      ensures GetVertical() && !GetView()
    {
      style := STYLE_VERTICAL;
    }

    /** getView */
    function GetView(): bool
      reads this
    {
      IsView(style)
    }

    /** getVertical */
    function GetVertical(): bool
      reads this
    {
      IsVertical(style)
    }

    /** setView: the view bit reads back as `view`; the vertical bit and every other bit are kept. */
    method SetView(view: bool)
      modifies this
      ensures style == WithView(old(style), view)
      ensures GetView() == view
      ensures GetVertical() == old(GetVertical())
    {
      var before := style;
      if view {
        style := style | STYLE_VIEW;
      } else {
        style := style & !STYLE_VIEW;
      }
      assert style == WithView(before, view);
      SettersAreIndependent(before, view);
    }

    /** setVertical: the vertical bit reads back as `vertical`; the view bit and every other bit are kept. */
    method SetVertical(vertical: bool)
      modifies this
      ensures style == WithVertical(old(style), vertical)
      ensures GetVertical() == vertical
      ensures GetView() == old(GetView())
    {
      var before := style;
      if vertical {
        style := style | STYLE_VERTICAL;
      } else {
        style := style & !STYLE_VERTICAL;
      }
      assert style == WithVertical(before, vertical);
      SettersAreIndependent(before, vertical);
    }
  }
}
