/**
 The request path of the proxy up to the choice of an entry: read the model
 name, resolve it, pick a replica, and make the body name the picked entry.
 */
module Proxy {
  import opened ByteStrings
  import opened Lifecycle
  import opened Orchestration
  import opened RoundRobin
  import opened Json
  import opened Splice
  import opened Sequences

  datatype Outcome =
    | BadRequest
    | NotFound
    | Routed(me: ModelEntry, body: Bytes)

  /** The entry that the set picks next. */
  function PickedBy(rs: ReplicaSet): ModelEntry
    requires rs.Valid()
    reads rs
  {
    rs.entries[Turn(rs.next, |rs.entries|)]
  }

  /** What the request should come to. */
  function Resolved(body: Option<Bytes>, byName: map<Bytes, ReplicaSet>): Outcome
    requires forall x | x in byName :: byName[x].Valid()
    reads byName.Values
  {
    if body.None? || Extract(body.value) == [] then BadRequest
    else
      var name := Extract(body.value);
      if name !in byName then NotFound
      else
        var me := PickedBy(byName[name]);
        Routed(me, if name == me.cfg.name then body.value else Rewrite(body.value, me.cfg.name))
  }

  /** The forwarded body names the picked entry, exactly when the client used that name or the name needs no escaping. */
  lemma ForwardedBodyNamesTheEntry(body: Bytes, name: Bytes)
    requires Extract(body) != []
    ensures var forwarded := if Extract(body) == name then body else Rewrite(body, name);
            Extract(forwarded) == name <==> Extract(body) == name || Plain(name, 0)
  {
    hide Locate, Rewrite, Plain;
    RoundTripIff(body, name);
  }

  /** `peekAndResolve`; only the cursor of the chosen set moves. */
  method PeekAndResolve(body: Option<Bytes>, byName: map<Bytes, ReplicaSet>) returns (r: Outcome)
    requires forall x | x in byName :: byName[x].Valid()
    modifies byName.Values
    ensures r == old(Resolved(body, byName))
    ensures r.BadRequest? <==> body.None? || Extract(body.value) == []
    ensures r.NotFound? <==> body.Some? && Extract(body.value) != [] && Extract(body.value) !in byName
    ensures r.Routed? ==>
              var rs := byName[Extract(body.value)];
              && r.me == rs.entries[Turn(old(rs.next), |rs.entries|)]
              && r.body == (if Extract(body.value) == r.me.cfg.name then body.value else Rewrite(body.value, r.me.cfg.name))
    ensures forall rs | rs in byName.Values :: rs.next ==
              if r.Routed? && rs == byName[Extract(body.value)] then Advance(old(rs.next), |rs.entries|) else old(rs.next)
    ensures r.Routed? && (Extract(body.value) == r.me.cfg.name || Plain(r.me.cfg.name, 0)) ==> Extract(r.body) == r.me.cfg.name
  {
    hide Locate, Extract, Rewrite, Plain;
    if body.None? {
      return BadRequest;
    }
    var buf := body.value;
    var modelName := ExtractModelField(buf);
    if modelName == [] {
      return BadRequest;
    }
    if modelName !in byName {
      return NotFound;
    }
    var me := byName[modelName].Pick();
    ForwardedBodyNamesTheEntry(buf, me.cfg.name);
    if modelName != me.cfg.name {
      buf := RewriteModelField(buf, me.cfg.name);
    }
    r := Routed(me, buf);
  }

  /** How often an entry occurs. */
  function Times(served: seq<ModelEntry>, me: ModelEntry): nat {
    if served == [] then 0 else Times(served[..|served| - 1], me) + (if served[|served| - 1] == me then 1 else 0)
  }

  /** Where the cursor stands after `w` calls. */
  function CursorAfter(next: nat, w: nat, n: nat): nat {
    if w == 0 then next else Advance(CursorAfter(next, w - 1, n), n)
  }

  lemma {:induction false} ChosenSnoc(next: nat, w: nat, n: nat, e: nat)
    requires n > 0
    ensures Chosen(next, w + 1, n, e) == Chosen(next, w, n, e) + (if Turn(CursorAfter(next, w, n), n) == e then 1 else 0)
    decreases w
  {
    if w > 0 {
      ChosenSnoc(Advance(next, n), w - 1, n, e);
      CursorShift(next, w - 1, n);
    }
  }

  lemma {:induction false} CursorShift(next: nat, w: nat, n: nat)
    ensures CursorAfter(Advance(next, n), w, n) == CursorAfter(next, w + 1, n)
  {
    if w > 0 {
      CursorShift(next, w - 1, n);
    }
  }

  /** Successive requests for one model reach each of its replicas equally often, up to one, until the cursor wraps. */
  method RequestsAreSpread(bodies: seq<Bytes>, name: Bytes, byName: map<Bytes, ReplicaSet>) returns (served: seq<ModelEntry>)
    requires forall x | x in byName :: byName[x].Valid()
    requires name != [] && name in byName && Distinct(byName[name].entries) && byName[name].next + |bodies| <= WRAP
    requires forall b | b in bodies :: Extract(b) == name
    modifies byName.Values
    ensures |served| == |bodies| && forall me | me in served :: me in byName[name].entries
    ensures var n := |byName[name].entries|;
            forall me | me in byName[name].entries :: |bodies| / n <= Times(served, me) <= (|bodies| + n - 1) / n
  {
    hide Extract, Rewrite, Plain, Resolved;
    var rs := byName[name];
    ghost var start := rs.next;
    served := [];
    for w := 0 to |bodies|
      invariant forall x | x in byName :: byName[x].Valid()
      invariant |served| == w && rs.next == CursorAfter(start, w, |rs.entries|)
      invariant forall me | me in served :: me in rs.entries
      invariant forall e: nat | e < |rs.entries| :: Times(served, rs.entries[e]) == Chosen(start, w, |rs.entries|, e)
    {
      assert bodies[w] in bodies;
      var r := PeekAndResolve(Some(bodies[w]), byName);
      ghost var before := served;
      served := served + [r.me];
      assert served[..w] == before;
      forall e: nat | e < |rs.entries| ensures Times(served, rs.entries[e]) == Chosen(start, w + 1, |rs.entries|, e) {
        ChosenSnoc(start, w, |rs.entries|, e);
      }
    }
    forall me | me in rs.entries ensures |bodies| / |rs.entries| <= Times(served, me) <= (|bodies| + |rs.entries| - 1) / |rs.entries| {
      var e :| 0 <= e < |rs.entries| && rs.entries[e] == me;
      FairBeforeWrap(start, |bodies|, |rs.entries|, e);
    }
  }
}
