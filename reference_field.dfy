/**
 * ReferenceField stores each of its Boolean options as a string column that
 * holds the pool's YES or NO; a getter reads YES, ignoring case, as true and
 * anything else, a missing value included, as false.
 */
module ReferenceFields {
  import opened Lang
  import opened StringPools

  const DEFAULT_DISPLAY_LENGTH := 200

  class ReferenceField {
    /** The string constants the entity reads its flag values from. */
    const pool: StringPool
    var displayLength: Nullable<int>
    var displayFlag: Nullable<string>
    var basicFlag: Nullable<string>
    var mainFlag: Nullable<string>
    var readonlyFlag: Nullable<string>
    var editable: Nullable<string>
    var allLine: Nullable<string>
    var requiredFlag: Nullable<string>
    var upperFlag: Nullable<string>
    var fromParent: Nullable<string>
    var queryFlag: Nullable<string>
    var queryRequireFlag: Nullable<string>
    var negativeFlag: Nullable<string>
    var queryLikeFlag: Nullable<string>
    var keyFlag: Nullable<string>

    /** A new field: the default display length and every flag column empty. */
    constructor(pool: StringPool)
      ensures this.pool == pool && displayLength == NonNull(DEFAULT_DISPLAY_LENGTH)
      ensures displayFlag.Null? && !GetDisplayFlag()
      ensures basicFlag.Null? && !GetBasicFlag()
      ensures mainFlag.Null? && !GetMainFlag()
      ensures readonlyFlag.Null? && !GetReadonlyFlag()
      ensures editable.Null? && !GetEditable()
      ensures allLine.Null? && !GetAllLine()
      ensures requiredFlag.Null? && !GetRequiredFlag()
      ensures upperFlag.Null? && !GetUpperFlag()
      ensures fromParent.Null? && !GetFromParent()
      ensures queryFlag.Null? && !GetQueryFlag()
      ensures queryRequireFlag.Null? && !GetQueryRequireFlag()
      ensures negativeFlag.Null? && !GetNegativeFlag()
      ensures queryLikeFlag.Null? && !GetQueryLikeFlag()
      ensures keyFlag.Null? && !GetKeyFlag()
    {
      this.pool := pool;
      displayLength := NonNull(DEFAULT_DISPLAY_LENGTH);
      displayFlag := Null;
      basicFlag := Null;
      mainFlag := Null;
      readonlyFlag := Null;
      editable := Null;
      allLine := Null;
      requiredFlag := Null;
      upperFlag := Null;
      fromParent := Null;
      queryFlag := Null;
      queryRequireFlag := Null;
      negativeFlag := Null;
      queryLikeFlag := Null;
      keyFlag := Null;
      UnsetFlagIsFalse(pool);
    }

    function GetDisplayFlag(): bool
      reads this
    {
      DecodeFlag(pool, displayFlag)
    }

    /** setDisplayFlag: stores YES or NO; the getter then reads back `b`. Only this column changes. */
    method SetDisplayFlag(b: bool)
      modifies this`displayFlag
      ensures displayFlag == NonNull(if b then pool.yes else pool.no)
      ensures GetDisplayFlag() == b
    {
      displayFlag := NonNull(EncodeFlag(pool, b));
      FlagRoundTrip(pool, b);
    }

    function GetBasicFlag(): bool
      reads this
    {
      DecodeFlag(pool, basicFlag)
    }

    /** setBasicFlag: stores YES or NO; the getter then reads back `b`. Only this column changes. */
    method SetBasicFlag(b: bool)
      modifies this`basicFlag
      ensures basicFlag == NonNull(if b then pool.yes else pool.no)
      ensures GetBasicFlag() == b
    {
      basicFlag := NonNull(EncodeFlag(pool, b));
      FlagRoundTrip(pool, b);
    }

    function GetMainFlag(): bool
      reads this
    {
      DecodeFlag(pool, mainFlag)
    }

    /** setMainFlag: stores YES or NO; the getter then reads back `b`. Only this column changes. */
    method SetMainFlag(b: bool)
      modifies this`mainFlag
      ensures mainFlag == NonNull(if b then pool.yes else pool.no)
      ensures GetMainFlag() == b
    {
      mainFlag := NonNull(EncodeFlag(pool, b));
      FlagRoundTrip(pool, b);
    }

    function GetReadonlyFlag(): bool
      reads this
    {
      DecodeFlag(pool, readonlyFlag)
    }

    /** setReadonlyFlag: stores YES or NO; the getter then reads back `b`. Only this column changes. */
    method SetReadonlyFlag(b: bool)
      modifies this`readonlyFlag
      ensures readonlyFlag == NonNull(if b then pool.yes else pool.no)
      ensures GetReadonlyFlag() == b
    {
      readonlyFlag := NonNull(EncodeFlag(pool, b));
      FlagRoundTrip(pool, b);
    }

    function GetEditable(): bool
      reads this
    {
      DecodeFlag(pool, editable)
    }

    /** setEditable: stores YES or NO; the getter then reads back `b`. Only this column changes. */
    method SetEditable(b: bool)
      modifies this`editable
      ensures editable == NonNull(if b then pool.yes else pool.no)
      ensures GetEditable() == b
    {
      editable := NonNull(EncodeFlag(pool, b));
      FlagRoundTrip(pool, b);
    }

    function GetAllLine(): bool
      reads this
    {
      DecodeFlag(pool, allLine)
    }

    /** setAllLine: stores YES or NO; the getter then reads back `b`. Only this column changes. */
    method SetAllLine(b: bool)
      modifies this`allLine
      ensures allLine == NonNull(if b then pool.yes else pool.no)
      ensures GetAllLine() == b
    {
      allLine := NonNull(EncodeFlag(pool, b));
      FlagRoundTrip(pool, b);
    }

    function GetRequiredFlag(): bool
      reads this
    {
      DecodeFlag(pool, requiredFlag)
    }

    /** setRequiredFlag: stores YES or NO; the getter then reads back `b`. Only this column changes. */
    method SetRequiredFlag(b: bool)
      modifies this`requiredFlag
      ensures requiredFlag == NonNull(if b then pool.yes else pool.no)
      ensures GetRequiredFlag() == b
    {
      requiredFlag := NonNull(EncodeFlag(pool, b));
      FlagRoundTrip(pool, b);
    }

    function GetUpperFlag(): bool
      reads this
    {
      DecodeFlag(pool, upperFlag)
    }

    /** setUpperFlag: stores YES or NO; the getter then reads back `b`. Only this column changes. */
    method SetUpperFlag(b: bool)
      modifies this`upperFlag
      ensures upperFlag == NonNull(if b then pool.yes else pool.no)
      ensures GetUpperFlag() == b
    {
      upperFlag := NonNull(EncodeFlag(pool, b));
      FlagRoundTrip(pool, b);
    }

    function GetFromParent(): bool
      reads this
    {
      DecodeFlag(pool, fromParent)
    }

    /** setFromParent: stores YES or NO; the getter then reads back `b`. Only this column changes. */
    method SetFromParent(b: bool)
      modifies this`fromParent
      ensures fromParent == NonNull(if b then pool.yes else pool.no)
      ensures GetFromParent() == b
    {
      fromParent := NonNull(EncodeFlag(pool, b));
      FlagRoundTrip(pool, b);
    }

    function GetQueryFlag(): bool
      reads this
    {
      DecodeFlag(pool, queryFlag)
    }

    /** setQueryFlag: stores YES or NO; the getter then reads back `b`. Only this column changes. */
    method SetQueryFlag(b: bool)
      modifies this`queryFlag
      ensures queryFlag == NonNull(if b then pool.yes else pool.no)
      ensures GetQueryFlag() == b
    {
      queryFlag := NonNull(EncodeFlag(pool, b));
      FlagRoundTrip(pool, b);
    }

    function GetQueryRequireFlag(): bool
      reads this
    {
      DecodeFlag(pool, queryRequireFlag)
    }

    /** setQueryRequireFlag: stores YES or NO; the getter then reads back `b`. Only this column changes. */
    method SetQueryRequireFlag(b: bool)
      modifies this`queryRequireFlag
      ensures queryRequireFlag == NonNull(if b then pool.yes else pool.no)
      ensures GetQueryRequireFlag() == b
    {
      queryRequireFlag := NonNull(EncodeFlag(pool, b));
      FlagRoundTrip(pool, b);
    }

    function GetNegativeFlag(): bool
      reads this
    {
      DecodeFlag(pool, negativeFlag)
    }

    /** setNegativeFlag: stores YES or NO; the getter then reads back `b`. Only this column changes. */
    method SetNegativeFlag(b: bool)
      modifies this`negativeFlag
      ensures negativeFlag == NonNull(if b then pool.yes else pool.no)
      ensures GetNegativeFlag() == b
    {
      negativeFlag := NonNull(EncodeFlag(pool, b));
      FlagRoundTrip(pool, b);
    }

    function GetQueryLikeFlag(): bool
      reads this
    {
      DecodeFlag(pool, queryLikeFlag)
    }

    /** setQueryLikeFlag: stores YES or NO; the getter then reads back `b`. Only this column changes. */
    method SetQueryLikeFlag(b: bool)
      modifies this`queryLikeFlag
      ensures queryLikeFlag == NonNull(if b then pool.yes else pool.no)
      ensures GetQueryLikeFlag() == b
    {
      queryLikeFlag := NonNull(EncodeFlag(pool, b));
      FlagRoundTrip(pool, b);
    }

    function GetKeyFlag(): bool
      reads this
    {
      DecodeFlag(pool, keyFlag)
    }

    /** setKeyFlag: stores YES or NO; the getter then reads back `b`. Only this column changes. */
    method SetKeyFlag(b: bool)
      modifies this`keyFlag
      ensures keyFlag == NonNull(if b then pool.yes else pool.no)
      ensures GetKeyFlag() == b
    {
      keyFlag := NonNull(EncodeFlag(pool, b));
      FlagRoundTrip(pool, b);
    }
  }

  /** Setting one flag leaves every other flag's reading as it was. */
  method SetKeyFlagKeepsOthers(field: ReferenceField, b: bool)
    modifies field
    ensures field.GetKeyFlag() == b
    ensures field.GetDisplayFlag() == old(field.GetDisplayFlag())
    ensures field.GetBasicFlag() == old(field.GetBasicFlag())
    ensures field.GetMainFlag() == old(field.GetMainFlag())
    ensures field.GetReadonlyFlag() == old(field.GetReadonlyFlag())
    ensures field.GetEditable() == old(field.GetEditable())
    ensures field.GetAllLine() == old(field.GetAllLine())
    ensures field.GetRequiredFlag() == old(field.GetRequiredFlag())
    ensures field.GetUpperFlag() == old(field.GetUpperFlag())
    ensures field.GetFromParent() == old(field.GetFromParent())
    ensures field.GetQueryFlag() == old(field.GetQueryFlag())
    ensures field.GetQueryRequireFlag() == old(field.GetQueryRequireFlag())
    ensures field.GetNegativeFlag() == old(field.GetNegativeFlag())
    ensures field.GetQueryLikeFlag() == old(field.GetQueryLikeFlag())
    ensures field.displayLength == old(field.displayLength)
  {
    field.SetKeyFlag(b);
  }
}
