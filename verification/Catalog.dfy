/** The connections a deploy publishes for its agent (app/command_deploy.go, publishConnectionCatalog). */
module Catalog {
  import opened Records
  import opened Lifecycle
  import opened LifecycleInvariants

  datatype Entry = Entry(uuid: string, name: string, engine: Engine)

  /** A record whose connection lives on the agent. */
  predicate OnAgent(d: Deployment, agent: string) {
    d.agent == agent && d.conn != ""
  }

  function EntryOf(d: Deployment): Entry {
    Entry(d.conn, d.identifier + "-db", d.engine)
  }

  ghost predicate Distinct(conns: seq<Entry>) {
    forall i, j :: 0 <= i < j < |conns| ==> conns[i].uuid != conns[j].uuid
  }

  ghost predicate Has(conns: seq<Entry>, uuid: string) {
    exists i :: 0 <= i < |conns| && conns[i].uuid == uuid
  }

  ghost predicate Recorded(e: Entry, agent: string, deps: seq<Deployment>) {
    exists d :: d in deps && OnAgent(d, agent) && e == EntryOf(d)
  }

  /** The deploy's own connection first, then one entry per other connection recorded for the agent, and no other. */
  ghost predicate IsCatalog(conns: seq<Entry>, agent: string, own: Entry, deps: seq<Deployment>) {
    && Distinct(conns)
    && (own.uuid != "" ==> conns != [] && conns[0] == own)
    && (forall i | 0 <= i < |conns| :: conns[i].uuid != "" && (conns[i] == own || Recorded(conns[i], agent, deps)))
    && forall d :: d in deps && OnAgent(d, agent) ==> Has(conns, d.conn)
  }

  method PublishConnectionCatalog(agent: string, own: Entry, deps: seq<Deployment>) returns (conns: seq<Entry>)
    ensures IsCatalog(conns, agent, own, deps)
  {
    conns := [];
    var seen := {};
    conns, seen := AddConn(conns, seen, own);
    for n := 0 to |deps|
      invariant IsCatalog(conns, agent, own, deps[..n])
      invariant forall u :: u in seen <==> Has(conns, u)
    {
      var d := deps[n];
      assert deps[..n + 1] == deps[..n] + [d];
      ghost var before := conns;
      if d.agent == agent && d.conn != "" {
        conns, seen := AddConn(conns, seen, EntryOf(d));
      }
      CatalogGrows(before, conns, agent, own, deps[..n], d);
    }
    assert deps[..|deps|] == deps;
  }

  lemma CatalogGrows(conns: seq<Entry>, more: seq<Entry>, agent: string, own: Entry, deps: seq<Deployment>, d: Deployment)
    requires IsCatalog(conns, agent, own, deps) && Distinct(more)
    requires more == if !OnAgent(d, agent) || Has(conns, d.conn) then conns else conns + [EntryOf(d)]
    ensures IsCatalog(more, agent, own, deps + [d])
  {
    forall e | e in deps + [d] && OnAgent(e, agent) ensures Has(more, e.conn) {
      HasStays(conns, more, e.conn);
      assert e !in deps && more != conns ==> more[|conns|].uuid == e.conn;
    }
    forall i | 0 <= i < |more| ensures more[i].uuid != "" && (more[i] == own || Recorded(more[i], agent, deps + [d])) {
      if i < |conns| {
        assert more[i] == conns[i];
        if Recorded(conns[i], agent, deps) {
          var e :| e in deps && OnAgent(e, agent) && conns[i] == EntryOf(e);
          assert e in deps + [d];
        }
      } else {
        assert more[i] == EntryOf(d) && d in deps + [d];
      }
    }
  }

  lemma HasStays(conns: seq<Entry>, more: seq<Entry>, uuid: string)
    requires conns <= more
    ensures Has(conns, uuid) ==> Has(more, uuid)
  {
    if Has(conns, uuid) {
      var i :| 0 <= i < |conns| && conns[i].uuid == uuid;
      assert more[i].uuid == uuid;
    }
  }

  /** The closure addConn: an entry is appended unless it has no uuid or one that was seen. */
  method AddConn(conns: seq<Entry>, seen: set<string>, e: Entry) returns (more: seq<Entry>, seenNow: set<string>)
    requires Distinct(conns) && forall u :: u in seen <==> Has(conns, u)
    ensures Distinct(more) && forall u :: u in seenNow <==> Has(more, u)
    ensures more == if e.uuid == "" || Has(conns, e.uuid) then conns else conns + [e]
    ensures e.uuid != "" ==> Has(more, e.uuid)
  {
    if e.uuid == "" || e.uuid in seen {
      return conns, seen;
    }
    more, seenNow := conns + [e], seen + {e.uuid};
    forall u ensures u in seenNow <==> Has(more, u) {
      if Has(conns, u) {
        var i :| 0 <= i < |conns| && conns[i].uuid == u;
        assert more[i].uuid == u;
      }
      assert more[|conns|] == e;
    }
  }

  /** In every store the pipeline can reach, publishing keeps every other project's connection, under its own name. */
  lemma NoProjectIsDropped(store: Store, deps: seq<Deployment>, agent: string, own: Entry, conns: seq<Entry>, id: string)
    requires StoreInv(store) && Lists(deps, store)
    requires IsCatalog(conns, agent, own, deps)
    requires id in store && store[id].agent == agent && store[id].conn != "" && store[id].conn != own.uuid
    ensures Entry(store[id].conn, store[id].identifier + "-db", store[id].engine) in conns
  {
    var rec := store[id];
    assert rec in deps;
    var i :| 0 <= i < |conns| && conns[i].uuid == rec.conn;
    var d :| d in deps && OnAgent(d, agent) && conns[i] == EntryOf(d);
    assert store[d.id] == d && store[d.id].conn == store[id].conn;
  }
}
