# Inventory item: a Dafny model

The repository defines one entity, the inventory `Item` of `src/Item.php`: a
mutable record with three public fields (`name`, `sellIn`, `quality`), a
constructor that stores its three arguments, and a string conversion that
renders the fields as `<name>, <sellIn>, <quality>`. There are no aging or
quality rules in the code, and the model has none.

Files:

- `decimal.dfy`: module `Wrappers` (an `Option` datatype) and module
  `Decimal`. `Decimal.IntToDecimal` is the base-10 text that string
  interpolation gives an integer: digits only, no leading zeros, and one `-`
  in front of negative values only. The lenient parser `Decimal.ParseInt` is
  its partner. Parsing a rendering gives the integer back. A canonical
  decimal text is the rendering of the value it parses to.
- `item.dfy`: module `Product`, named after the source's namespace. It holds
  `class Item` with its three fields, its constructor and its rendering
  `ToString()`. The rendering is a function that reads the current fields.
  The module also has `LastSeparator` and `TrailingFields`. These read the
  two numbers back from a rendered line by cutting it at its last two `", "`
  separators.
- `scenarios.dfy`: module `ItemScenarios`. These callers construct items,
  reassign a public field and render. Each one states the exact text the
  caller gets.

A name may itself contain `", "` (for example "Sulfuras, Hand of Ragnaros").
So the model defines no parser for a whole line. Decimal text never holds a
comma, so the two numbers can always be read back from the right. That is
the round trip the model proves.

## Model

| member | source | states |
|---|---|---|
| `Product.Item.constructor` | src/Item.php:13-17 | no precondition: any name, including the empty one, and any sellIn and quality, negatives included, are stored exactly as given |
| `Product.Item.ToString` | src/Item.php:19-21 | reads only the object's fields, as they are at the call. Its length is that of the name, two separators and the two decimal numbers. At their own positions, in this order, it holds the name, `", "`, the decimal sellIn, `", "` and the decimal quality |
| `Product.TrailingFieldsOfItem` | src/Item.php:9-21 | the numbers read back from an item's rendering are its current sellIn and quality, whatever its name holds |
| `Decimal.NatToDecimal` | src/Item.php:20 | the text of a natural number is one or more digits with no leading zero, and it starts with `'0'` exactly when the number is 0 |
| `Decimal.IntToDecimal` | src/Item.php:20 | the text of an integer is canonical: either digits alone, or one `-` followed by the digits of a positive value. It starts with `-` exactly when the value is negative. It holds no comma and no space |
| `Decimal.ParseIntOfIntToDecimal` | src/Item.php:20 | parsing the decimal text of any integer gives that integer back |
| `Decimal.IntToDecimalOfParseInt` | src/Item.php:20 | every canonical decimal text parses, and it is the rendering of the value it parses to. So rendering is a bijection between integers and canonical texts |
| `Decimal.IntToDecimalInjective` | src/Item.php:20 | two integers with the same decimal text are equal |
| `Product.LastSeparator` | src/Item.php:20 | finds the position of the last `", "` in a line: a separator is at that position and none is after it. It gives None only when the line has no separator |
| `Product.LastSeparatorIsLastComma` | src/Item.php:20 | a separator with no comma anywhere after it is the one the search finds |
| `Product.LastSeparatorBeforeCommaFree` | src/Item.php:20 | when text with no comma follows a separator, that separator is the last one in the line, whatever comes before it |
| `Product.TrailingFieldsOfRendering` | src/Item.php:20 | for every name, even one containing `", "`, the rendered line gives back exactly the sellIn and quality it was built from |
| `ItemScenarios.ConstructAndRender` | src/Item.php:13-20 | constructing an item and rendering it at once gives name, `", "`, decimal sellIn, `", "`, decimal quality, in that order, for every argument triple. The numbers read back from it |
| `ItemScenarios.RenderTwice` | src/Item.php:19-21 | two renderings with no assignment in between are identical and reflect the current sellIn and quality. No field changes, because the method has no modifies clause |
| `ItemScenarios.AgedBrie` | src/Item.php:13-20 | `("Aged Brie", 2, 0)` renders as `Aged Brie, 2, 0` |
| `ItemScenarios.Sulfuras` | src/Item.php:13-20 | `("Sulfuras, Hand of Ragnaros", 0, 80)` renders as `Sulfuras, Hand of Ragnaros, 0, 80`: a name holding the separator is copied verbatim |
| `ItemScenarios.EmptyName` | src/Item.php:13-20 | `("", 0, 0)` renders as `, 0, 0` |
| `ItemScenarios.NegativeFields` | src/Item.php:13-20 | `("Aged Brie", -1, -5)` renders as `Aged Brie, -1, -5`: negative numbers are accepted and get a single leading `-` |
| `ItemScenarios.ElixirAfterQualityChange` | src/Item.php:9-20 | `("Elixir", 5, 7)` renders as `Elixir, 5, 7`. After `quality` is reassigned to 6, it renders as `Elixir, 5, 6`: the line follows the current fields, not the constructed ones |

## Left out

- Dynamic typing: the PHP properties are untyped and could hold floats, booleans, null or objects, each with its own interpolation rule. The model fixes the types to `string`, `int` and `int`.
- Integer width: PHP integers are 64-bit, while the model's `int` is unbounded. The item does no arithmetic, so the width changes nothing the model states.
- `declare(strict_types=1)` and the `Product` namespace are language and packaging directives with no behaviour. The namespace only gives its name to the Dafny module.
- A parser for a whole rendered line is not modelled, because the source promises no inverse. Only the two numbers are read back.
- Public field assignment is written as direct assignment to the Dafny fields, as PHP callers do. The source has no setter methods to model.
- Inventory rules such as a sellIn countdown or quality bounds are not in the source.
- Concurrent access to a shared item is not modelled; the code provides no synchronisation.
- String encoding: names are sequences of characters. PHP works on bytes, and no encoding is modelled.
