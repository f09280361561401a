/**
 * The numbered-menu choice shared by the two console front ends: the typed
 * text is stripped, read with `int()`, and accepted when it names one of the
 * items `1..n`.
 */
module Menu {
  import opened Wrappers
  import opened Text

  /** The 0-based item the input selects, or None for empty, non-numeric or out-of-range input. */
  function ChoiceIndex(choice: string, n: nat): (r: Option<nat>)
    ensures r.Some? <==> ParseInt(choice).Some? && 1 <= ParseInt(choice).value <= n
    ensures r.Some? ==> r.value < n && r.value + 1 == ParseInt(choice).value
  {
    StripIdempotent(choice);
    match ParseInt(Strip(choice))
    case None => None
    case Some(v) => if 1 <= v <= n then Some(v - 1) else None
  }

  /** Typing the number shown next to item `i` selects item `i`. */
  lemma ChoiceOfShownNumber(i: nat, n: nat)
    requires i < n
    ensures ChoiceIndex(IntToString(i + 1), n) == Some(i)
  {
    ParseIntOfString(i + 1);
  }

  /** Empty input never selects anything. */
  lemma EmptyChoice(n: nat)
    ensures ChoiceIndex("", n).None?
  {
    assert Strip("") == "";
  }
}
