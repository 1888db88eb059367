/**
 * ReferenceTab: how a tab of a reference table is shown, as fields or as a
 * table, and whether its table may be edited in place (a YES/NO column).
 */
module ReferenceTabs {
  import opened Lang
  import opened StringPools

  const TAB_TYPE_FIELD := "Field"
  const TAB_TYPE_TABLE := "Table"

  class ReferenceTab {
    /** The string constants the entity reads its flag values from. */
    const pool: StringPool
    var tabType: Nullable<string>
    var editFlag: Nullable<string>

    /** A new tab is shown as fields and reads as not editable. */
    constructor(pool: StringPool)
      ensures this.pool == pool && tabType == NonNull(TAB_TYPE_FIELD)
      ensures editFlag.Null? && !GetEditFlag()
    {
      this.pool := pool;
      tabType := NonNull(TAB_TYPE_FIELD);
      editFlag := Null;
      UnsetFlagIsFalse(pool);
    }

    function GetEditFlag(): bool
      reads this
    {
      DecodeFlag(pool, editFlag)
    }

    /** setEditFlag: stores YES or NO; the getter then reads back `b`. */
    method SetEditFlag(b: bool)
      modifies this`editFlag
      ensures editFlag == NonNull(if b then pool.yes else pool.no)
      ensures GetEditFlag() == b
    {
      editFlag := NonNull(EncodeFlag(pool, b));
      FlagRoundTrip(pool, b);
    }
  }
}
