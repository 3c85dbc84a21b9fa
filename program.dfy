/** What main feeds draw_village: the answers its prompts accept. */
module Program {
  import opened Layout
  import opened Prompt
  import opened Village

  /** The answers main accepts (a column count from [2, 3], a row count
      from [2], a size from ["S", "M", "L"] and a theme from ["pastel",
      "primary"], as ask_choice_str lowers them) always name table entries,
      so draw_village then never raises, and it draws 2 cols cells. */
  lemma MainChoicesNeverRaise(cols: int, rows: int, sizeKey: string, themeKey: string)
    requires cols in [2, 3] && rows in [2]
    requires sizeKey in LowerAll(["S", "M", "L"]) && themeKey in LowerAll(["pastel", "primary"])
    ensures KnownKeys(sizeKey, themeKey) && VillageOutcome(cols, rows, sizeKey, themeKey) == Done
    ensures NumCells(cols, rows) == 2 * cols
  {
    assert Lower("S") == "s" && Lower("M") == "m" && Lower("L") == "l";
    assert Lower("pastel") == "pastel" && Lower("primary") == "primary";
    assert LowerAll(["S", "M", "L"]) == ["s", "m", "l"];
    assert LowerAll(["pastel", "primary"]) == ["pastel", "primary"];
  }
}
