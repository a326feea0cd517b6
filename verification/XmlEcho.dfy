/** Printing an object tree and feeding the text to a parser, with the objects
    that do it. */
module XmlEcho {
  import opened XmlTree
  import opened XmlParser
  import opened XmlTags
  import opened XmlRoundTrip
  import opened XmlEvents
  import opened XmlPushParser
  import opened Objects
  import opened XmlSerializer

  /** What one side serialises the other side parses: all of it is accepted, and
      the callbacks made are the events of the tree exactly if the parser cannot
      confuse it with what it parsed before. */
  method SerializeAndFeed(xobj: XObject, p: PushParser, ghost k: Task, ghost c: Carry) returns (o: Outcome)
    requires k.root.obj == xobj && Holds(k.root, k.e, k.S) && Fits(k.e)
    requires p.Valid() && AtRest(p.State(), c)
    modifies p, p.bp
    ensures o == Done && p.Valid() && AtRest(p.State(), NextAll(Tokens(k.e), c)) && old(p.seen) <= p.seen
    ensures Meanings(p.seen[|old(p.seen)|..]) == TreeEvents(k.e) <==> Unconfused(k.e, c)
  {
    hide Holds, Fits, Run, Text, AtRest, TreeEvents, Unconfused, Meanings;
    var text, _ := Serialize(xobj, k);
    ghost var before := p.State();
    RoundTrip(before, c, k.e);
    ghost var after := RoundTripExact(before, c, k.e);
    o := p.Feed(text);
    assert p.seen[|old(p.seen)|..] == Run(before, text).seen;
  }
}
