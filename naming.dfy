/** The text form of player ids. */
module Naming {
  import opened Field
  import opened Decimal

  /** The text of an id: `H` or `R` followed by the number in decimal. */
  function Name(p: PlayerId): (s: string)
    ensures |s| >= 2 && (s[0] == 'H' <==> p.side == Human) && (s[0] == 'R' <==> p.side == Robot)
  {
    [if p.side == Human then 'H' else 'R'] + DecimalString(p.number)
  }

  /** Different ids have different texts. */
  lemma NameInjective(p: PlayerId, q: PlayerId)
    ensures Name(p) == Name(q) ==> p == q
  {
    if Name(p) == Name(q) {
      assert Name(p)[1..] == DecimalString(p.number);
      assert Name(q)[1..] == DecimalString(q.number);
      DecimalRoundTrip(p.number);
      DecimalRoundTrip(q.number);
    }
  }
}
