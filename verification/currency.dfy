/** Currency helpers: splitting an amount of copper into gold, silver and
    copper, and rendering it with the default `{gold}g {silver}s {copper}c` template. */
module Currency {
  import opened Wrappers
  import opened Strings

  /** Copper per unit of each coin; copper is the base unit. */
  const CurrencyExchange: map<string, int> := map["gold" := 10000, "silver" := 100, "copper" := 1]

  datatype Coins = Coins(gold: int, silver: int, copper: int)

  /** The amount of copper a triple of coins is worth. */
  function ToCopper(coins: Coins): int {
    coins.gold * CurrencyExchange["gold"]
    + coins.silver * CurrencyExchange["silver"]
    + coins.copper * CurrencyExchange["copper"]
  }

  /** Silver and copper each below one unit of the next coin up. */
  predicate Normal(coins: Coins) {
    0 <= coins.silver < 100 && 0 <= coins.copper < 100
  }

  /** Floor division by the gold rate, then by the silver rate on the remainder;
      the divisors are positive, so Dafny's `/` and `%` are Python's `//` and `%`. */
  function ConvertCurrency(copper: int): (coins: Coins)
    ensures ToCopper(coins) == copper
    ensures Normal(coins)
    ensures coins.gold * 10000 <= copper < (coins.gold + 1) * 10000
  {
    var gold := copper / CurrencyExchange["gold"];
    var rest := copper % CurrencyExchange["gold"];
    Coins(gold, rest / CurrencyExchange["silver"], rest % CurrencyExchange["silver"])
  }

  lemma ExchangeRadices()
    ensures CurrencyExchange.Keys == {"gold", "silver", "copper"}
    ensures CurrencyExchange["gold"] == 100 * CurrencyExchange["silver"]
    ensures CurrencyExchange["silver"] == 100 * CurrencyExchange["copper"]
    ensures CurrencyExchange["copper"] == 1
  {
  }

  /** A non-negative amount never yields a negative coin. */
  lemma ConvertNonNegative(copper: int)
    requires copper >= 0
    ensures ConvertCurrency(copper).gold >= 0
    ensures ConvertCurrency(copper).silver >= 0 && ConvertCurrency(copper).copper >= 0
  {
  }

  /** The normal triple worth a given amount is unique, so it is the conversion. */
  lemma ConvertCurrencyUnique(copper: int, coins: Coins)
    requires Normal(coins)
    requires ToCopper(coins) == copper
    ensures ConvertCurrency(copper) == coins
  {
    var r := ConvertCurrency(copper);
    var low := coins.silver * 100 + coins.copper;
    var lowR := r.silver * 100 + r.copper;
    assert 0 <= low < 10000 && 0 <= lowR < 10000;
    assert (coins.gold - r.gold) * 10000 == lowR - low;
    assert coins.gold == r.gold;
    assert (coins.silver - r.silver) * 100 == r.copper - coins.copper;
  }

  /** Converting what a normal triple is worth gives the triple back. */
  lemma ConvertToCopper(coins: Coins)
    requires Normal(coins)
    ensures ConvertCurrency(ToCopper(coins)) == coins
  {
    ConvertCurrencyUnique(ToCopper(coins), coins);
  }

  lemma ConvertExample()
    ensures ConvertCurrency(7540984) == Coins(754, 9, 84)
  {
  }

  /** The default template `{gold}g {silver}s {copper}c` filled with Python's `str()` of each coin. */
  function Render(coins: Coins): string {
    IntToString(coins.gold) + "g " + IntToString(coins.silver) + "s " + IntToString(coins.copper) + "c"
  }

  /** `format_currency` with its default template: the converted coins, unpadded.
      `ReadCoins` accepts only renderings (`ReadCoinsCanonical`), so the first
      clause pins the text to `Render(ConvertCurrency(copper))`. */
  function FormatCurrency(copper: int): (s: string)
    ensures ReadCoins(s) == Some(ConvertCurrency(copper))
    ensures ParseCurrency(s) == Some(copper)
  {
    ReadRender(ConvertCurrency(copper));
    Render(ConvertCurrency(copper))
  }

  /** The three texts the default template surrounds: before `g `, between
      `g ` and `s `, and between `s ` and the final `c`. */
  function Pieces(s: string): Option<(string, string, string)> {
    match Cut(s, 'g')
    case None => None
    case Some((gold, afterGold)) =>
      match AfterGold(afterGold)
      case None => None
      case Some((silver, copper)) => Some((gold, silver, copper))
  }

  /** The silver and copper texts of what follows the `g`. */
  function AfterGold(t: string): Option<(string, string)> {
    if |t| == 0 || t[0] != ' ' then None
    else
      match Cut(t[1..], 's')
      case None => None
      case Some((silver, afterSilver)) =>
        if |afterSilver| < 2 || afterSilver[0] != ' ' || afterSilver[|afterSilver| - 1] != 'c' then None
        else Some((silver, afterSilver[1..|afterSilver| - 1]))
  }

  /** Reads the coins back from the default rendering. */
  function ReadCoins(s: string): Option<Coins> {
    match Pieces(s)
    case None => None
    case Some((gold, silver, copper)) =>
      match (ParseInt(gold), ParseInt(silver), ParseInt(copper))
      case (Some(g), Some(sv), Some(c)) => Some(Coins(g, sv, c))
      case _ => None
  }

  /** Reads an amount back from the default rendering. */
  function ParseCurrency(s: string): Option<int> {
    match ReadCoins(s)
    case Some(coins) => Some(ToCopper(coins))
    case None => None
  }

  lemma RenderCutsAtGold(coins: Coins)
    ensures Cut(Render(coins), 'g') == Some((IntToString(coins.gold), " " + SilverAndCopper(coins)))
  {
    var g := IntToString(coins.gold);
    assert Render(coins) == g + ['g'] + (" " + SilverAndCopper(coins));
    IntToStringAvoids(coins.gold, 'g');
    CutConcat(g, " " + SilverAndCopper(coins), 'g');
  }

  function SilverAndCopper(coins: Coins): string {
    IntToString(coins.silver) + "s " + IntToString(coins.copper) + "c"
  }

  lemma SilverAndCopperCuts(coins: Coins)
    ensures Cut(SilverAndCopper(coins), 's') == Some((IntToString(coins.silver), " " + IntToString(coins.copper) + "c"))
  {
    var sv := IntToString(coins.silver);
    var rest := " " + IntToString(coins.copper) + "c";
    assert SilverAndCopper(coins) == sv + ['s'] + rest;
    IntToStringAvoids(coins.silver, 's');
    CutConcat(sv, rest, 's');
  }

  /** A rendering splits into the three coins' decimal texts. */
  lemma PiecesOfRender(coins: Coins)
    ensures Pieces(Render(coins)) == Some((IntToString(coins.gold), IntToString(coins.silver), IntToString(coins.copper)))
  {
    RenderCutsAtGold(coins);
    var afterGold := " " + SilverAndCopper(coins);
    assert afterGold[1..] == SilverAndCopper(coins);
    SilverAndCopperCuts(coins);
    var afterSilver := " " + IntToString(coins.copper) + "c";
    assert afterSilver[1..|afterSilver| - 1] == IntToString(coins.copper);
    assert AfterGold(afterGold) == Some((IntToString(coins.silver), IntToString(coins.copper)));
  }

  /** Whatever `AfterGold` accepts is ` <silver>s <copper>c`. */
  lemma AfterGoldShape(t: string, silver: string, copper: string)
    requires AfterGold(t) == Some((silver, copper))
    ensures t == " " + silver + "s " + copper + "c"
  {
    var rest := t[1..];
    var afterSilver := Cut(rest, 's').value.1;
    assert afterSilver == [' '] + copper + ['c'];
    assert rest == silver + ['s'] + afterSilver;
    assert t == [' '] + rest;
    TailText(silver, copper);
  }

  lemma TailText(silver: string, copper: string)
    ensures " " + silver + "s " + copper + "c" == [' '] + (silver + ['s'] + ([' '] + copper + ['c']))
  {
  }

  /** Whatever `Pieces` accepts is the template around the three texts it returns. */
  lemma PiecesShape(s: string, gold: string, silver: string, copper: string)
    requires Pieces(s) == Some((gold, silver, copper))
    ensures s == gold + "g " + silver + "s " + copper + "c"
  {
    var afterGold := PiecesCut(s);
    AfterGoldShape(afterGold, silver, copper);
    GoldText(gold, silver, copper);
  }

  /** `Pieces` cuts at the first `g` and hands the rest to `AfterGold`. */
  lemma PiecesCut(s: string) returns (afterGold: string)
    requires Pieces(s).Some?
    ensures s == Pieces(s).value.0 + ['g'] + afterGold
    ensures AfterGold(afterGold) == Some((Pieces(s).value.1, Pieces(s).value.2))
  {
    afterGold := Cut(s, 'g').value.1;
  }

  lemma GoldText(gold: string, silver: string, copper: string)
    ensures gold + ['g'] + (" " + silver + "s " + copper + "c") == gold + "g " + silver + "s " + copper + "c"
  {
  }

  /** Any triple, normal or not, is read back from its rendering. */
  lemma ReadRender(coins: Coins)
    ensures ReadCoins(Render(coins)) == Some(coins)
  {
    PiecesOfRender(coins);
    IntToStringRoundTrip(coins.gold);
    IntToStringRoundTrip(coins.silver);
    IntToStringRoundTrip(coins.copper);
  }

  /** The reader accepts nothing but renderings: text read as some coins is their rendering. */
  lemma ReadCoinsCanonical(s: string, coins: Coins)
    requires ReadCoins(s) == Some(coins)
    ensures s == Render(coins)
  {
    var (gold, silver, copper) := Pieces(s).value;
    PiecesShape(s, gold, silver, copper);
    ParseIntCanonical(gold, coins.gold);
    ParseIntCanonical(silver, coins.silver);
    ParseIntCanonical(copper, coins.copper);
  }

  /** Any triple filled into the template is read back as the copper it is worth. */
  lemma ParseRender(coins: Coins)
    ensures ParseCurrency(Render(coins)) == Some(ToCopper(coins))
  {
    ReadRender(coins);
  }

  /** Two amounts with the same rendering are the same amount. */
  lemma FormatCurrencyInjective(a: int, b: int)
    requires FormatCurrency(a) == FormatCurrency(b)
    ensures a == b
  {
    assert ParseCurrency(FormatCurrency(a)) == Some(a);
  }

  lemma FormatExample()
    ensures FormatCurrency(7540984) == "754g 9s 84c"
  {
    ConvertExample();
    RenderExample();
  }

  lemma RenderExample()
    ensures Render(Coins(754, 9, 84)) == "754g 9s 84c"
  {
  }
}
