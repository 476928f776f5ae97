/** What a routing table means: the first row whose match, target and guards all agree. */
module Routing {
  import opened Common
  import opened Schema
  import opened Compile

  predicate CanSend(c: Connection) {
    c.typ.TunType? || c.direction.Outgoing?
  }

  ghost predicate Sends(cs: seq<Connection>, name: Name) {
    exists c :: c in cs && c.name == name && CanSend(c)
  }

  ghost predicate Receives(cs: seq<Connection>, name: Name) {
    exists c :: c in cs && c.name == name && (c.typ.TunType? || c.direction.Incoming?)
  }

  ghost predicate TunNamed(cs: seq<Connection>, name: Name) {
    exists c :: c in cs && c.name == name && c.typ.TunType?
  }

  /** What the runtime answers while one packet is dispatched. */
  datatype Oracle = Oracle(accepts: Name -> bool, delivers: Name -> bool, passes: Name -> bool)

  ghost predicate Eligible(r: Route, source: Name, processed: bool, o: Oracle) {
    && (r.processed.Some? ==> r.processed.value == processed)
    && (r.source == "" || r.source == source)
    && o.accepts(r.target)
    && (forall c :: c in r.conditions ==> o.passes(c))
    && (r.egress != "" || o.delivers(r.target))
  }

  ghost function Eligibility(source: Name, processed: bool, o: Oracle): Route -> bool {
    r => Eligible(r, source, processed, o)
  }

  ghost function Select(table: seq<Route>, source: Name, processed: bool, o: Oracle): Option<Route> {
    First(table, Eligibility(source, processed, o))
  }
}
