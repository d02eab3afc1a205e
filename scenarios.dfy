/**
  Callers of the item: construct one, reassign its public fields, render it.
  Each method states the exact text a caller sees; the lemmas after them
  state the same text for the pure expression, apart from the heap.
*/
module ItemScenarios {
  import opened Wrappers
  import opened Decimal
  import opened Product

  /** A freshly constructed item renders its three arguments, for every choice of them. */
  method ConstructAndRender(name: string, sellIn: int, quality: int) returns (line: string)
    ensures line == name + ", " + IntToDecimal(sellIn) + ", " + IntToDecimal(quality)
    ensures TrailingFields(line) == Some((sellIn, quality))
  {
    var item := new Item(name, sellIn, quality);
    line := item.ToString();
    TrailingFieldsOfItem(item);
  }

  /**
    Rendering twice with no assignment in between gives the same text.  The
    method has no modifies clause, so no field of the item changes either.
  */
  method RenderTwice(item: Item) returns (first: string, second: string)
    ensures first == second
    ensures TrailingFields(first) == Some((item.sellIn, item.quality))
  {
    first := item.ToString();
    second := item.ToString();
    TrailingFieldsOfItem(item);
  }

  method AgedBrie() returns (line: string)
    ensures line == "Aged Brie, 2, 0"
  {
    var item := new Item("Aged Brie", 2, 0);
    line := item.ToString();
    AgedBrieLine();
  }

  /** A name that holds the separator is rendered verbatim. */
  method Sulfuras() returns (line: string)
    ensures line == "Sulfuras, Hand of Ragnaros, 0, 80"
  {
    var item := new Item("Sulfuras, Hand of Ragnaros", 0, 80);
    line := item.ToString();
    SulfurasLine();
  }

  /** An empty name is accepted; the line then starts with the separator. */
  method EmptyName() returns (line: string)
    ensures line == ", 0, 0"
  {
    var item := new Item("", 0, 0);
    line := item.ToString();
    EmptyNameLine();
  }

  /** Negative numbers are accepted unchanged and render with one leading '-'. */
  method NegativeFields() returns (line: string)
    ensures line == "Aged Brie, -1, -5"
  {
    var item := new Item("Aged Brie", -1, -5);
    line := item.ToString();
    NegativeFieldsLine();
  }

  /** The line follows the fields as they are when it is rendered, not as they were constructed. */
  method ElixirAfterQualityChange() returns (before: string, after: string)
    ensures before == "Elixir, 5, 7"
    ensures after == "Elixir, 5, 6"
  {
    var item := new Item("Elixir", 5, 7);
    before := item.ToString();
    item.quality := 6;
    after := item.ToString();
    ElixirLines();
  }

  lemma AgedBrieLine()
    ensures "Aged Brie" + Separator + IntToDecimal(2) + Separator + IntToDecimal(0) == "Aged Brie, 2, 0"
  {
  }

  lemma SulfurasLine()
    ensures "Sulfuras, Hand of Ragnaros" + Separator + IntToDecimal(0) + Separator + IntToDecimal(80)
         == "Sulfuras, Hand of Ragnaros, 0, 80"
  {
  }

  lemma EmptyNameLine()
    ensures "" + Separator + IntToDecimal(0) + Separator + IntToDecimal(0) == ", 0, 0"
  {
  }

  lemma NegativeFieldsLine()
    ensures "Aged Brie" + Separator + IntToDecimal(-1) + Separator + IntToDecimal(-5) == "Aged Brie, -1, -5"
  {
  }

  lemma ElixirLines()
    ensures "Elixir" + Separator + IntToDecimal(5) + Separator + IntToDecimal(7) == "Elixir, 5, 7"
    ensures "Elixir" + Separator + IntToDecimal(5) + Separator + IntToDecimal(6) == "Elixir, 5, 6"
  {
  }
}
