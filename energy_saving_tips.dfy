/**
 * The energy-saving tips card: six fixed tips in three categories, a category
 * filter, the list of tips the user has marked as implemented, and the yearly
 * savings the marked and unmarked tips add up to.
 */
module EnergySavingTips {
  import opened Wrappers
  import Lists
  import Text

  datatype Tip = Tip(id: int, category: string, title: string, savingPotential: string)

  /** The saving text every tip uses: "Save up to $N per year". */
  function SavingText(n: nat): string
  {
    "Save up to $" + Text.NatToString(n) + " per year"
  }

  /** The six tips, in display order. */
  const Tips: seq<Tip> := [
    Tip(1, "lighting", "Switch to LED bulbs", SavingText(75)),
    Tip(2, "lighting", "Use motion sensors", SavingText(50)),
    Tip(3, "climate", "Optimize thermostat schedule", SavingText(180)),
    Tip(4, "climate", "Use ceiling fans", SavingText(165)),
    Tip(5, "devices", "Unplug idle electronics", SavingText(100)),
    Tip(6, "devices", "Schedule device usage", SavingText(120))
  ]

  /** The yearly savings of all six tips together. */
  const TotalOfAllTips := 690

  /**
   * `text.match(/\$(\d+)/)[1]` read with `parseInt`: the digits after the
   * first '$' that is followed by a digit, or nothing when no '$' is.
   */
  function DollarAmount(text: string): (r: Option<nat>)
    ensures r.Some? <==> exists i :: 0 <= i < |text| - 1 && text[i] == '$' && Text.IsDigit(text[i + 1])
  {
    if |text| < 2 then None
    else if text[0] == '$' && Text.IsDigit(text[1]) then Some(Text.ParseDigits(Text.LeadingDigits(text[1..])))
    else DollarAmount(text[1..])
  }

  /** Text without a '$' is skipped over by the search. */
  lemma {:induction false} DollarAmountSkips(before: string, rest: string)
    requires '$' !in before
    ensures DollarAmount(before + rest) == DollarAmount(rest)
  {
    if before != [] {
      var s := before + rest;
      assert s[0] == before[0] && before[0] in before;
      assert s[1..] == before[1..] + rest;
      assert forall c :: c in before[1..] ==> c in before;
      DollarAmountSkips(before[1..], rest);
      if |s| >= 2 {
        assert DollarAmount(s) == DollarAmount(s[1..]);
      }
    } else {
      assert before + rest == rest;
    }
  }

  /** The digits of a number followed by a non-digit are exactly what `\d+` takes. */
  lemma {:induction false} LeadingDigitsOfNumber(digits: string, after: string)
    requires Text.AllDigits(digits)
    requires after == [] || !Text.IsDigit(after[0])
    ensures Text.LeadingDigits(digits + after) == digits
  {
    if digits != [] {
      assert (digits + after)[1..] == digits[1..] + after;
      LeadingDigitsOfNumber(digits[1..], after);
      assert digits == [digits[0]] + digits[1..];
    }
  }

  /** A '$' followed by digits and then a non-digit is read as those digits. */
  lemma DollarThenDigits(digits: string, after: string)
    requires |digits| >= 1 && Text.AllDigits(digits)
    requires after == [] || !Text.IsDigit(after[0])
    ensures DollarAmount("$" + digits + after) == Some(Text.ParseDigits(digits))
  {
    var s := "$" + digits + after;
    assert s[1..] == digits + after;
    assert s[1] == digits[0];
    LeadingDigitsOfNumber(digits, after);
  }

  /** The amount read back from a saving text is the amount it was written with. */
  lemma AmountOfSavingText(n: nat)
    ensures DollarAmount(SavingText(n)) == Some(n)
  {
    var digits := Text.NatToString(n);
    var rest := "$" + digits + " per year";
    assert SavingText(n) == "Save up to " + rest;
    DollarAmountSkips("Save up to ", rest);
    DollarThenDigits(digits, " per year");
    Text.ParsePrinted(n);
  }

  /** A tip's yearly saving in dollars (every tip's text carries one). */
  function Amount(tip: Tip): (n: int)
    ensures n >= 0
  {
    DollarAmount(tip.savingPotential).GetOr(0)
  }

  /** A tip whose text was written with amount `n` is worth `n`. */
  lemma AmountOfTip(tip: Tip, n: nat)
    requires tip.savingPotential == SavingText(n)
    ensures Amount(tip) == n
  {
    AmountOfSavingText(n);
  }

  /** The sum of six amounts, term by term. */
  lemma SumOfSix(t: seq<Tip>)
    requires |t| == 6
    ensures Lists.Sum(t, Amount) ==
            Amount(t[0]) + Amount(t[1]) + Amount(t[2]) + Amount(t[3]) + Amount(t[4]) + Amount(t[5])
  {
    assert t[5..][1..] == [] && t[5..][0] == t[5];
    assert Lists.Sum(t[5..], Amount) == Amount(t[5]);
    assert t[4..][1..] == t[5..];
    assert Lists.Sum(t[4..], Amount) == Amount(t[4]) + Lists.Sum(t[5..], Amount);
    assert t[3..][1..] == t[4..];
    assert Lists.Sum(t[3..], Amount) == Amount(t[3]) + Lists.Sum(t[4..], Amount);
    assert t[2..][1..] == t[3..];
    assert Lists.Sum(t[2..], Amount) == Amount(t[2]) + Lists.Sum(t[3..], Amount);
    assert t[1..][1..] == t[2..];
    assert Lists.Sum(t[1..], Amount) == Amount(t[1]) + Lists.Sum(t[2..], Amount);
  }

  /** The six amounts are 75, 50, 180, 165, 100 and 120, which add up to 690. */
  lemma TotalOfTips()
    ensures Lists.Sum(Tips, Amount) == TotalOfAllTips
  {
    SumOfWritten(Tips, [75, 50, 180, 165, 100, 120]);
  }

  /** Six tips written with amounts `ns` are worth the sum of `ns`. */
  lemma SumOfWritten(t: seq<Tip>, ns: seq<nat>)
    requires |t| == 6 && |ns| == 6
    requires forall i :: 0 <= i < 6 ==> t[i].savingPotential == SavingText(ns[i])
    ensures Lists.Sum(t, Amount) == ns[0] + ns[1] + ns[2] + ns[3] + ns[4] + ns[5]
  {
    forall i | 0 <= i < 6
      ensures Amount(t[i]) == ns[i]
    {
      AmountOfTip(t[i], ns[i]);
    }
    SumOfSix(t);
  }

  function IsImplemented(implementedTips: seq<int>): Tip -> bool
  {
    (tip: Tip) => tip.id in implementedTips
  }

  function NotImplemented(implementedTips: seq<int>): Tip -> bool
  {
    (tip: Tip) => tip.id !in implementedTips
  }

  datatype Savings = Savings(implemented: int, potential: int)

  /**
   * `calculatePotentialSavings()` over a list of tips: the amounts of the
   * marked tips, and what the unmarked ones would still save; together they
   * are always the total of all tips.
   */
  function CalculateSavings(tips: seq<Tip>, implementedTips: seq<int>): (s: Savings)
    ensures s.implemented == Lists.Sum(Lists.Filter(tips, IsImplemented(implementedTips)), Amount)
    ensures s.potential == Lists.Sum(Lists.Filter(tips, NotImplemented(implementedTips)), Amount)
    ensures s.implemented + s.potential == Lists.Sum(tips, Amount)
    ensures s.implemented >= 0 && s.potential >= 0
  {
    var implemented := Lists.Sum(Lists.Filter(tips, IsImplemented(implementedTips)), Amount);
    Lists.SumPartition(tips, Amount, IsImplemented(implementedTips), NotImplemented(implementedTips));
    AmountsNonNegative(Lists.Filter(tips, IsImplemented(implementedTips)));
    AmountsNonNegative(Lists.Filter(tips, NotImplemented(implementedTips)));
    Savings(implemented, Lists.Sum(tips, Amount) - implemented)
  }

  lemma AmountsNonNegative(tips: seq<Tip>)
    ensures Lists.Sum(tips, Amount) >= 0
  {
    forall i | 0 <= i < |tips| ensures Amount(tips[i]) >= 0 {
    }
    Lists.SumNonNegative(tips, Amount);
  }

  /** On the card's six tips the two figures always add up to 690. */
  lemma SavingsAddUp(implementedTips: seq<int>)
    ensures CalculateSavings(Tips, implementedTips).implemented + CalculateSavings(Tips, implementedTips).potential == TotalOfAllTips
    ensures CalculateSavings(Tips, implementedTips).implemented <= TotalOfAllTips
  {
    TotalOfTips();
  }

  /** Nothing is marked at first, so nothing is saved yet and everything is potential. */
  lemma InitiallyNothingSaved(tips: seq<Tip>)
    ensures CalculateSavings(tips, []) == Savings(0, Lists.Sum(tips, Amount))
  {
    Lists.FilterNone(tips, IsImplemented([]));
  }

  function InCategory(category: string): Tip -> bool
  {
    (tip: Tip) => tip.category == category
  }

  /** `filteredTips`: every tip for 'all', otherwise exactly that category's, in order. */
  function FilteredTips(tips: seq<Tip>, activeCategory: string): (r: seq<Tip>)
    ensures activeCategory == "all" ==> r == tips
    ensures activeCategory != "all" ==> forall tip :: tip in r <==> tip in tips && tip.category == activeCategory
    ensures Lists.IsSubsequence(r, tips)
  {
    if activeCategory == "all" then
      Lists.SubsequenceReflexive(tips);
      tips
    else
      Lists.FilterIsSubsequence(tips, InCategory(activeCategory));
      Lists.Filter(tips, InCategory(activeCategory))
  }

  function Other(id: int): int -> bool
  {
    (x: int) => x != id
  }

  /**
   * `toggleImplemented(tipId)`: an id that is listed is removed (every copy of
   * it); one that is not is appended. Toggling flips whether `id` is listed
   * and leaves every other id as it was.
   */
  function Toggled(ids: seq<int>, id: int): (r: seq<int>)
    ensures id in r <==> id !in ids
    ensures forall x :: x != id ==> (x in r <==> x in ids)
  {
    if id in ids then Lists.Filter(ids, Other(id)) else ids + [id]
  }

  /** Toggling never creates a duplicate. */
  lemma ToggledNoDuplicates(ids: seq<int>, id: int)
    requires Lists.NoDuplicates(ids)
    ensures Lists.NoDuplicates(Toggled(ids, id))
  {
    if id in ids {
      Lists.FilterNoDuplicates(ids, Other(id));
    }
  }

  /** Marking a tip and unmarking it again restores the list. */
  lemma ToggleTwiceFromAbsent(ids: seq<int>, id: int)
    requires id !in ids
    ensures Toggled(Toggled(ids, id), id) == ids
  {
    Lists.FilterAll(ids, Other(id));
    assert forall i :: 0 <= i < |ids| ==> Other(id)(ids[i]);
    Lists.FilterAppend(ids, [id], Other(id));
    Lists.FilterNone([id], Other(id));
  }

  /**
   * Unmarking a tip and marking it again keeps the same set of ids but moves
   * the id to the end.
   */
  lemma ToggleTwiceFromPresent(ids: seq<int>, id: int)
    requires id in ids
    ensures Toggled(Toggled(ids, id), id) == Lists.Filter(ids, Other(id)) + [id]
    ensures forall x :: x in Toggled(Toggled(ids, id), id) <==> x in ids
  {
  }

  /** For example, with tips 1 and 2 marked, toggling tip 1 twice leaves them listed as 2, 1. */
  lemma ToggleTwiceReorders()
    ensures Toggled(Toggled([1, 2], 1), 1) == [2, 1]
  {
    assert Lists.Filter([2], Other(1)) == [2];
    assert Lists.Filter([1, 2], Other(1)) == [2];
  }

  /** The card's state: the marked tip ids and the selected category. */
  class TipsCard {
    var implementedTips: seq<int>
    var activeCategory: string

    ghost predicate Valid()
      reads this
    {
      Lists.NoDuplicates(implementedTips)
    }

    constructor ()
      ensures implementedTips == [] && activeCategory == "all"
      ensures Valid()
    {
      implementedTips, activeCategory := [], "all";
    }

    /** `toggleImplemented(tipId)`; marked ids never repeat. */
    method ToggleImplemented(tipId: int)
      requires Valid()
      modifies this
      ensures implementedTips == Toggled(old(implementedTips), tipId)
      ensures activeCategory == old(activeCategory)
      ensures Valid()
    {
      ToggledNoDuplicates(implementedTips, tipId);
      implementedTips := Toggled(implementedTips, tipId);
    }

    /** A category button: `setActiveCategory(category)`. */
    method SelectCategory(category: string)
      modifies this
      ensures activeCategory == category && implementedTips == old(implementedTips)
    {
      activeCategory := category;
    }
  }
}
