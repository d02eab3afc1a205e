/**
  The inventory item: a mutable record of a name, a sell-in day count and a
  quality score, and its one-line rendering "<name>, <sellIn>, <quality>".

  The name is free text and may itself contain ", " (as in
  "Sulfuras, Hand of Ragnaros"), so the line cannot be cut at its first
  separator.  The decimal text of the two numbers never contains a comma,
  though, so cutting at the last two separators recovers both numbers.
*/
module Product {
  import opened Wrappers
  import opened Decimal

  /** The text that joins the three fields of a rendered item. */
  const Separator: string := ", "

  predicate IsSeparatorAt(line: string, j: int) {
    0 <= j && j + 1 < |line| && line[j] == ',' && line[j + 1] == ' '
  }

  /** The position of the last separator in the line, if there is one. */
  function LastSeparator(line: string): (k: Option<nat>)
    ensures k.Some? ==> IsSeparatorAt(line, k.value)
    ensures k.Some? ==> forall j :: k.value < j < |line| ==> !IsSeparatorAt(line, j)
    ensures k.None? ==> forall j :: 0 <= j < |line| ==> !IsSeparatorAt(line, j)
  {
    if |line| < 2 then None
    else if line[|line| - 2] == ',' && line[|line| - 1] == ' ' then Some(|line| - 2)
    else
      var shorter := line[..|line| - 1];
      assert forall j :: 0 <= j < |line| - 2 ==> (IsSeparatorAt(line, j) <==> IsSeparatorAt(shorter, j));
      LastSeparator(shorter)
  }

  /** The two numbers at the end of a rendered line, read from the right. */
  function TrailingFields(line: string): Option<(int, int)> {
    match LastSeparator(line)
    case None => None
    case Some(k) =>
      var head := line[..k];
      match LastSeparator(head)
      case None => None
      case Some(j) =>
        match (ParseInt(head[j + 2..]), ParseInt(line[k + 2..]))
        case (Some(sellIn), Some(quality)) => Some((sellIn, quality))
        case _ => None
  }

  /** A separator with no comma anywhere after it is the last separator of the line. */
  lemma LastSeparatorIsLastComma(line: string, p: nat)
    requires IsSeparatorAt(line, p)
    requires forall j :: p < j < |line| ==> line[j] != ','
    ensures LastSeparator(line) == Some(p)
  {
  }

  /** After a separator, text with no comma leaves no comma in the rest of the line. */
  lemma SeparatorThenCommaFree(prefix: string, tail: string)
    requires forall k :: 0 <= k < |tail| ==> tail[k] != ','
    ensures IsSeparatorAt(prefix + Separator + tail, |prefix|)
    ensures forall j :: |prefix| < j < |prefix + Separator + tail| ==> (prefix + Separator + tail)[j] != ','
  {
  }

  /** A separator followed by comma-free text is the last separator of the line. */
  lemma LastSeparatorBeforeCommaFree(prefix: string, tail: string)
    requires forall k :: 0 <= k < |tail| ==> tail[k] != ','
    ensures LastSeparator(prefix + Separator + tail) == Some(|prefix|)
  {
    SeparatorThenCommaFree(prefix, tail);
    LastSeparatorIsLastComma(prefix + Separator + tail, |prefix|);
  }

  /** The numbers of a rendered line come back out of it, whatever the name holds. */
  lemma TrailingFieldsOfRendering(name: string, sellIn: int, quality: int)
    ensures TrailingFields(name + Separator + IntToDecimal(sellIn) + Separator + IntToDecimal(quality))
         == Some((sellIn, quality))
  {
    var head := name + Separator + IntToDecimal(sellIn);
    var line := head + Separator + IntToDecimal(quality);
    LastSeparatorBeforeCommaFree(head, IntToDecimal(quality));
    LastSeparatorBeforeCommaFree(name, IntToDecimal(sellIn));
    assert line[..|head|] == head;
    assert line[|head| + 2..] == IntToDecimal(quality);
    assert head[|name| + 2..] == IntToDecimal(sellIn);
    ParseIntOfIntToDecimal(sellIn);
    ParseIntOfIntToDecimal(quality);
  }

  class Item {
    var name: string
    var sellIn: int
    var quality: int

    /** Any three values are accepted and stored as given. */
    constructor (name: string, sellIn: int, quality: int)
      ensures this.name == name && this.sellIn == sellIn && this.quality == quality
    {
      this.name := name;
      this.sellIn := sellIn;
      this.quality := quality;
    }

    /**
      The line "<name>, <sellIn>, <quality>" built from the fields as they are
      now: the name, a separator, the decimal sellIn, a separator and the
      decimal quality, each piece at its place and nothing else.
    */
    function ToString(): (r: string)
      reads this
      ensures |r| == |name| + |Separator| + |IntToDecimal(sellIn)| + |Separator| + |IntToDecimal(quality)|
      ensures r[..|name|] == name
      ensures r[|name|..|name| + 2] == Separator
      ensures r[|name| + 2..|r| - |IntToDecimal(quality)| - 2] == IntToDecimal(sellIn)
      ensures r[|r| - |IntToDecimal(quality)| - 2..|r| - |IntToDecimal(quality)|] == Separator
      ensures r[|r| - |IntToDecimal(quality)|..] == IntToDecimal(quality)
    {
      name + Separator + IntToDecimal(sellIn) + Separator + IntToDecimal(quality)
    }
  }

  /** Whatever the item's name holds, its numbers read back from its rendering are its current fields. */
  lemma TrailingFieldsOfItem(item: Item)
    ensures TrailingFields(item.ToString()) == Some((item.sellIn, item.quality))
  {
    TrailingFieldsOfRendering(item.name, item.sellIn, item.quality);
  }
}
