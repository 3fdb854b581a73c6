/** The dynamic table's column schema (`src/components/Dynamic/table.ts`):
    the default column, filling a partial column with defaults, and the
    default cell formatter. */
module DynamicTable {
  import opened Wrappers
  import opened Js

  /** The default column, in its declaration order. */
  const Column: Props := [
    ("visible", Bool(true)),
    ("checkAuth", Null),
    ("type", Str("")),
    ("sortable", Bool(false)),
    ("className", Str("")),
    ("labelClassName", Str("")),
    ("align", Str("")),
    ("headerAlign", Str("")),
    ("prop", Str("")),
    ("label", Str("")),
    ("width", Null),
    ("minWidth", Null),
    ("slotHeader", Null),
    ("slotContent", Null),
    ("formatter", Fn(DefaultCellFormatter)),
    ("fixed", Null),
    ("showOverflowTooltip", Bool(true)),
    ("childMap", Null)
  ]

  /** The default formatter `(_row, _column, cellValue) => ...`: an empty
      cell shows "-", where only the number 0 does not count as empty. */
  function DefaultCellFormat(cell: Value): (r: Value)
    ensures Truthy(r) || r == Num(0)
    ensures Truthy(cell) || cell == Num(0) ==> r == cell
    ensures !Truthy(cell) && cell != Num(0) ==> r == Str("-")
  {
    if !Truthy(cell) && cell != Num(0) then Str("-") else cell
  }

  /** Formatting a formatted cell changes nothing more. */
  lemma DefaultCellFormatIdempotent(cell: Value)
    ensures DefaultCellFormat(DefaultCellFormat(cell)) == DefaultCellFormat(cell)
  {
  }

  /** `INIT_COLUMN(config)`: the default column overridden by `config`
      (the deep copy changes nothing on values). */
  function InitColumn(config: Props): Props {
    Spread(Column, config)
  }

  /** A filled-in column keeps every default key, in the default order, and
      adds after them the keys only `config` has. */
  lemma InitColumnKeys(config: Props)
    ensures |Column| <= |InitColumn(config)|
    ensures Keys(InitColumn(config))[..|Column|] == Keys(Column)
    ensures forall k :: k in Keys(InitColumn(config)) <==> k in Keys(Column) || k in Keys(config)
  {
    SpreadShape(Column, config);
  }

  /** Each key `config` gives takes `config`'s value as a whole; every other
      key keeps its default. */
  lemma InitColumnValues(config: Props)
    ensures forall k :: k !in Keys(config) ==> Get(InitColumn(config), k) == Get(Column, k)
    ensures UniqueKeys(config) ==> forall k :: k in Keys(config) ==> Get(InitColumn(config), k) == Get(config, k)
  {
    SpreadLaws(Column, config);
  }

  /** The default column formats its cells with the default formatter. */
  lemma ColumnFormatter()
    ensures Get(Column, "formatter") == Some(Fn(DefaultCellFormatter))
  {
    GetFirst(Column, 14);
  }

  /** A column whose configuration brings no formatter formats its cells
      with the default formatter. */
  lemma InitColumnFormatsByDefault(config: Props)
    requires "formatter" !in Keys(config)
    ensures Field(InitColumn(config), "formatter") == Fn(DefaultCellFormatter)
  {
    SpreadKeeps(Column, config, "formatter");
    ColumnFormatter();
  }
}
