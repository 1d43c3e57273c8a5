/**
 * The Bún Quậy sauce mixer: four sliders (chili, sugar, salt, calamansi),
 * a sauce colour computed from chili and sugar, and a "check recipe" button
 * that shows one of two messages, cleared again by a 3-second timer or by
 * the next slider change.
 */
module BunQuay {
  import opened Wrappers

  /** A slider reading: the range inputs run from 0 to 100 and are read with `parseInt`. */
  type Level = x: int | 0 <= x <= 100

  datatype Ingredient = Chili | Sugar | Salt | Calamansi

  datatype Sauce = Sauce(chili: Level, sugar: Level, salt: Level, calamansi: Level)

  const InitialSauce := Sauce(25, 30, 15, 40)

  const PerfectMessage := "Chuẩn vị Phú Quốc!"
  const AdjustMessage := "Cần điều chỉnh thêm một chút!"

  /** The slider value of one ingredient. */
  function Amount(s: Sauce, k: Ingredient): Level
  {
    match k
    case Chili => s.chili
    case Sugar => s.sugar
    case Salt => s.salt
    case Calamansi => s.calamansi
  }

  /** The record spread `{ ...prev, [ingredient]: value }`. */
  function WithAmount(s: Sauce, k: Ingredient, v: Level): (r: Sauce)
    ensures Amount(r, k) == v
    ensures forall k' :: k' != k ==> Amount(r, k') == Amount(s, k')
  {
    match k
    case Chili => s.(chili := v)
    case Sugar => s.(sugar := v)
    case Salt => s.(salt := v)
    case Calamansi => s.(calamansi := v)
  }

  /** Setting an ingredient to the value it already has changes nothing. */
  lemma WithOwnAmount(s: Sauce, k: Ingredient)
    ensures WithAmount(s, k, Amount(s, k)) == s
  {
  }

  /** The recipe check: every bound is strict. */
  predicate IsPerfect(s: Sauce)
  {
    && s.chili > 60
    && s.sugar > 25 && s.sugar < 55
    && s.salt > 10 && s.salt < 40
    && s.calamansi > 30 && s.calamansi < 65
  }

  /** The message shown after the check. */
  function Verdict(s: Sauce): (m: string)
    ensures m == PerfectMessage <==> IsPerfect(s)
    ensures m == AdjustMessage <==> !IsPerfect(s)
  {
    if IsPerfect(s) then PerfectMessage else AdjustMessage
  }

  /** The starting sauce is not the perfect one: its chili is 25, far below the required 61. */
  lemma InitialSauceNeedsAdjusting()
    ensures !IsPerfect(InitialSauce)
    ensures Verdict(InitialSauce) == AdjustMessage
  {
  }

  /** The perfect sauces are exactly the box [61,100] x [26,54] x [11,39] x [31,64]. */
  lemma PerfectBox(s: Sauce)
    ensures IsPerfect(s) <==>
      61 <= s.chili && 26 <= s.sugar <= 54 && 11 <= s.salt <= 39 && 31 <= s.calamansi <= 64
  {
  }

  /** Colour components, as exact rationals. */
  datatype Rgb = Rgb(red: real, green: real, blue: real)

  /** `Math.max(x, floor)`. */
  function Max(x: real, floor: real): (r: real)
    ensures r >= x && r >= floor && (r == x || r == floor)
  {
    if x >= floor then x else floor
  }

  /** The sauce colour: two linear functions of chili and sugar, each clamped from below. */
  function SauceColor(s: Sauce): (c: Rgb)
    ensures c.red == 255.0
    ensures 80.0 <= c.green <= 240.0
    ensures 60.0 <= c.blue <= 220.0
    ensures c.green == 80.0 <==> 15 * s.chili + 3 * s.sugar >= 1600
    ensures c.blue == 60.0 <==> 18 * s.chili + 5 * s.sugar >= 1600
  {
    var r := 255.0;
    var g := 240.0 - (s.chili as real * 1.5) - (s.sugar as real * 0.3);
    var b := 220.0 - (s.chili as real * 1.8) - (s.sugar as real * 0.5);
    Rgb(Max(r, 200.0), Max(g, 80.0), Max(b, 60.0))
  }

  /** More chili or more sugar never makes the sauce lighter: green and blue do not increase. */
  lemma ColorDarkensWithChiliAndSugar(s: Sauce, t: Sauce)
    requires s.chili <= t.chili && s.sugar <= t.sugar
    ensures SauceColor(t).green <= SauceColor(s).green
    ensures SauceColor(t).blue <= SauceColor(s).blue
  {
  }

  /** Salt and calamansi do not affect the colour. */
  lemma ColorIgnoresSaltAndCalamansi(s: Sauce, k: Ingredient, v: Level)
    requires k == Salt || k == Calamansi
    ensures SauceColor(WithAmount(s, k, v)) == SauceColor(s)
  {
  }

  /** The component's state: the sauce, the message (`null` when none) and the 3-second timers not yet fired. */
  class Mixer {
    var sauce: Sauce
    var message: Option<string>
    var pendingClears: nat

    /** The message, when shown, is one of the two verdicts. */
    ghost predicate Valid()
      reads this
    {
      message == None || message == Some(PerfectMessage) || message == Some(AdjustMessage)
    }

    constructor ()
      ensures Valid()
      ensures sauce == InitialSauce && message == None && pendingClears == 0
    {
      sauce := InitialSauce;
      message := None;
      pendingClears := 0;
    }

    /** A slider moved: one ingredient changes and any message is cleared. */
    method HandleSauceChange(k: Ingredient, v: Level)
      requires Valid()
      modifies this
      ensures Valid()
      ensures sauce == WithAmount(old(sauce), k, v)
      ensures message == None
      ensures pendingClears == old(pendingClears)
    {
      sauce := WithAmount(sauce, k, v);
      if message.Some? && message.value != "" {
        message := None;
      }
    }

    /** "Hoàn Thành": show the verdict and schedule its removal. */
    method HandleCheckRecipe()
      requires Valid()
      modifies this
      ensures Valid()
      ensures message == Some(Verdict(sauce))
      ensures message == Some(PerfectMessage) <==> IsPerfect(sauce)
      ensures sauce == old(sauce) && pendingClears == old(pendingClears) + 1
    {
      message := Some(Verdict(sauce));
      pendingClears := pendingClears + 1;
    }

    /** One of the scheduled 3-second timers fires and clears the message, whichever it is. */
    method MessageTimerFires()
      requires Valid()
      modifies this
      ensures Valid()
      ensures sauce == old(sauce)
      ensures old(pendingClears) > 0 ==> message == None && pendingClears == old(pendingClears) - 1
      ensures old(pendingClears) == 0 ==> message == old(message) && pendingClears == 0
    {
      if pendingClears > 0 {
        pendingClears := pendingClears - 1;
        message := None;
      }
    }
  }
}
