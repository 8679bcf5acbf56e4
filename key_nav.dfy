/** Keyboard navigation between the page's panels: the digit keys 1 to 6 jump to
    the panel of that number, when the page has that many panels. */
module KeyNav {

  datatype Option<T> = None | Some(value: T)

  /** Number of panels the digit keys can reach. */
  const DigitKeyCount: nat := 6

  /** The key that jumps to the panel at index idx: the digit idx + 1. */
  function KeyFor(idx: nat): (key: string)
    requires idx < DigitKeyCount
    ensures |key| == 1 && '1' <= key[0] <= '6'
  {
    [('1' as int + idx) as char]
  }

  /** The panel index a key jumps to, given the number of panels, or None when the key is
      not a single digit 1 to 6 or its panel does not exist. */
  function PanelForKey(key: string, panelCount: nat): (r: Option<nat>)
    ensures r.Some? ==> r.value < DigitKeyCount && r.value < panelCount && key == KeyFor(r.value)
    ensures r.None? ==> forall idx :: 0 <= idx < DigitKeyCount && idx < panelCount ==> key != KeyFor(idx)
  {
    if |key| == 1 && '1' <= key[0] <= '6' then
      var idx := key[0] as int - '1' as int;
      if idx < panelCount then Some(idx) else None
    else
      None
  }

  /** Every reachable panel has its key, and that key leads back to it. */
  lemma KeyRoundTrip(idx: nat, panelCount: nat)
    requires idx < DigitKeyCount && idx < panelCount
    ensures PanelForKey(KeyFor(idx), panelCount) == Some(idx)
  {
  }

  /** Distinct panels have distinct keys. */
  lemma KeysDistinct(i: nat, j: nat)
    requires i < DigitKeyCount && j < DigitKeyCount && i != j
    ensures KeyFor(i) != KeyFor(j)
  {
  }
}
