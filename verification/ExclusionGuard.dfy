/** Every way a block can reach a router, and the permanent exclusion list in front of it. The list
    is a file that may change between any two reads, so every read is a parameter of its own. */
module ExclusionGuard {
  import opened Types
  import opened Addresses
  import opened DedupKey
  import opened Selection

  // ---- the list ----

  /** A line without its comment: what it parses as. */
  datatype Line = Blank | MacLine(mac: string) | Entry(net: Network) | OtherText(text: string)

  datatype ListFile = Readable(lines: seq<Line>) | Unreadable | Undecodable

  predicate WellFormed(f: ListFile) { f.Readable? ==> forall l | l in f.lines && l.Entry? :: ValidNetwork(l.net) }

  /** The list could be read, and the address is outside every network on it. */
  predicate Outside(a: Address, f: ListFile)
    requires WellFormed(f)
  {
    f.Readable? && forall l | l in f.lines && l.Entry? :: !Contains(l.net, a)
  }

  datatype Loaded = Entries(nets: set<Network>) | Unavailable | DecodeError

  /** load_excluded_ips: all entries or an error, never a part of the list. */
  method LoadExcludedIps(f: ListFile) returns (r: Loaded)
    ensures r.Entries? <==> f.Readable?
    ensures r.Entries? ==> forall n :: n in r.nets <==> Entry(n) in f.lines
    ensures r.Unavailable? <==> f.Unreadable?
  {
    if f.Unreadable? { return Unavailable; }
    if f.Undecodable? { return DecodeError; }
    var nets := {};
    for i := 0 to |f.lines|
      invariant forall n :: n in nets <==> Entry(n) in f.lines[..i]
    {
      if f.lines[i].Entry? {
        nets := nets + {f.lines[i].net};
      }
    }
    assert f.lines[..|f.lines|] == f.lines;
    r := Entries(nets);
  }

  datatype Screening = Excluded | Clear | Raised

  /** is_excluded_ip: an unreadable list excludes everything, an undecodable one raises. */
  method IsExcludedIp(a: Address, f: ListFile) returns (r: Screening)
    requires WellFormed(f)
    ensures r == Clear <==> Outside(a, f)
    ensures r == Raised <==> f.Undecodable?
  {
    var loaded := LoadExcludedIps(f);
    if loaded.Unavailable? { return Excluded; }
    if loaded.DecodeError? { return Raised; }
    var rest := loaded.nets;
    while rest != {}
      invariant rest <= loaded.nets
      invariant forall n | n in loaded.nets - rest :: !Contains(n, a)
      decreases rest
    {
      var n :| n in rest;
      assert Entry(n) in f.lines;
      if Contains(n, a) { return Excluded; }
      rest := rest - {n};
    }
    r := Clear;
  }

  // ---- the agent's own check ----

  /** A request's address field: missing, not an address, or an address with its text. */
  datatype Target = NoAddress | NotAnAddress | Ip(text: string, address: Address)

  /** is_excluded is empty and the address is usable; a MAC is given in normalised form. */
  predicate AgentClears(t: Target, mac: string, f: ListFile)
    requires WellFormed(f)
  {
    && t.Ip? && Outside(t.address, f) && OtherText(t.text) !in f.lines
    && (mac != "" ==> MacLine(mac) !in f.lines)
  }

  // ---- the broker ----

  datatype RouterEntry = RouterEntry(id: string, tenant: Option<string>)

  /** A block command sent to a router, with the list its dispatch was screened against. */
  datatype Push = Push(router: RouterEntry, address: Address, tenant: string, screenedBy: ListFile)

  datatype Draft = Draft(id: string, tenant: string, target: Target)

  datatype Resolution = InvalidAddress | ExclusionList | NoRoutersForTenant | Approved

  function Slug(tenant: string): string { if IsTenantSlug(tenant) then tenant else "unassigned" }

  /** get_routers_for_tenant. */
  function RoutersFor(inventory: seq<RouterEntry>, tenant: string): seq<RouterEntry> {
    if inventory == [] then []
    else
      var rest := RoutersFor(inventory[1..], tenant);
      if tenant != "" && inventory[0].tenant == Some(tenant) then [inventory[0]] + rest else rest
  }

  lemma {:induction false} RoutersForIsTheTenants(inventory: seq<RouterEntry>, tenant: string, r: RouterEntry)
    ensures r in RoutersFor(inventory, tenant) <==> tenant != "" && r in inventory && r.tenant == Some(tenant)
  {
    if inventory != [] {
      RoutersForIsTheTenants(inventory[1..], tenant, r);
      assert inventory == [inventory[0]] + inventory[1..];
    }
  }

  /** The last draft with this id. */
  function FindDraft(drafts: seq<Draft>, id: string): Option<Draft> {
    if drafts == [] then None
    else if drafts[|drafts| - 1].id == id then Some(drafts[|drafts| - 1])
    else FindDraft(drafts[..|drafts| - 1], id)
  }

  /** Draft j is the one a call on this id means: no later one has the id. */
  predicate LastDraft(drafts: seq<Draft>, j: nat, id: string) {
    j < |drafts| && drafts[j].id == id && forall k | j < k < |drafts| :: drafts[k].id != id
  }

  lemma {:induction false} FindDraftIsTheLast(drafts: seq<Draft>, id: string, d: Draft)
    ensures FindDraft(drafts, id) == Some(d) <==> exists j: nat :: LastDraft(drafts, j, id) && drafts[j] == d
  {
    if drafts != [] {
      var n := |drafts| - 1;
      FindDraftIsTheLast(drafts[..n], id, d);
      if drafts[n].id == id {
        assert LastDraft(drafts, n, id);
      } else {
        if j: nat :| LastDraft(drafts[..n], j, id) && drafts[..n][j] == d { assert LastDraft(drafts, j, id); }
        if j: nat :| LastDraft(drafts, j, id) && drafts[j] == d { assert LastDraft(drafts[..n], j, id); }
      }
    }
  }

  lemma {:induction false} RoutersForInOrder(inventory: seq<RouterEntry>, tenant: string)
    requires tenant != ""
    ensures Selects(inventory, RoutersAt(inventory, tenant), RoutersFor(inventory, tenant))
  {
    if inventory == [] {
      SelectsNothing(inventory);
      assert RoutersAt(inventory, tenant) == {};
    } else {
      var rest := inventory[1..];
      RoutersForInOrder(rest, tenant);
      SelectsBehind(inventory[0], rest, RoutersAt(rest, tenant), RoutersFor(rest, tenant));
      assert [inventory[0]] + rest == inventory;
      PositionsBehind(RoutersAt(inventory, tenant), RoutersAt(rest, tenant));
    }
  }

  function RoutersAt(inventory: seq<RouterEntry>, tenant: string): set<nat> {
    set i: nat | i < |inventory| && inventory[i].tenant == Some(tenant)
  }

  function Pushes(rs: seq<RouterEntry>, a: Address, tenant: string, f: ListFile): seq<Push> {
    seq(|rs|, i requires 0 <= i < |rs| => Push(rs[i], a, tenant, f))
  }

  /** A call that can end in a dispatch, with the list at each moment it is read. */
  datatype Call =
    // autonomous or human-approved
    | Isolate(target: Target, mac: string, tenant: string, atAgent: ListFile, atCheck: ListFile, atDispatch: ListFile)
    // /webhook/dispatch
    | Dispatch(target: Target, tenant: string, atCheck: ListFile, atDispatch: ListFile)
    | Alert(id: string, target: Target, tenant: string, atCheck: ListFile, atDispatch: ListFile)
    | Approve(id: string, atCheck: ListFile, atDispatch: ListFile)

  predicate WellFormedCall(c: Call) {
    WellFormed(c.atCheck) && WellFormed(c.atDispatch) && (c.Isolate? ==> WellFormed(c.atAgent))
  }

  datatype World = World(inventory: seq<RouterEntry>, autoBlock: bool, drafts: seq<Draft>,
                         resolved: map<string, Resolution>, pushes: seq<Push>)

  predicate Pending(w: World, id: string) { id != "" && id !in w.resolved && FindDraft(w.drafts, id).Some? }

  /** The address and tenant a call is about. */
  function Subject(w: World, c: Call): (Target, string) {
    match c
    case Approve(id, _, _) =>
      if !Pending(w, id) then (NoAddress, "")
      else
        var draft := FindDraft(w.drafts, id).value;
        (draft.target, Slug(draft.tenant))
    case _ => (c.target, Slug(c.tenant))
  }

  /** What stands between a call and the routers. */
  predicate Passes(w: World, c: Call)
    requires WellFormedCall(c)
  {
    var t := Subject(w, c).0;
    && t.Ip? && Outside(t.address, c.atCheck) && Outside(t.address, c.atDispatch)
    && (c.Isolate? ==> AgentClears(t, c.mac, c.atAgent))
    && (c.Alert? ==> w.autoBlock)
  }

  function PushesOf(w: World, c: Call): seq<Push>
    requires WellFormedCall(c)
  {
    if Passes(w, c)
    then Pushes(RoutersFor(w.inventory, Subject(w, c).1), Subject(w, c).0.address, Subject(w, c).1, c.atDispatch)
    else []
  }

  // ---- whole runs ----

  /** The broker's state after a call, up to what it drafts and resolves. */
  ghost predicate Steps(w: World, c: Call, next: World) {
    && WellFormedCall(c)
    && next.inventory == w.inventory
    && next.autoBlock == w.autoBlock
    && next.pushes == w.pushes + PushesOf(w, c)
  }

  /** `ws` are the states of a run of the calls `cs`, whatever each call drafts and resolves. */
  ghost predicate Run(ws: seq<World>, cs: seq<Call>) {
    |ws| == |cs| + 1 && ws[0].pushes == [] && forall i | 0 <= i < |cs| :: Steps(ws[i], cs[i], ws[i + 1])
  }

  /** Call i pushed `p`: it was let through, and `p` is for its address and one of its tenant's routers. */
  ghost predicate PushedBy(w: World, c: Call, p: Push) {
    && WellFormedCall(c) && Passes(w, c) && p.tenant == Subject(w, c).1 && p.address == Subject(w, c).0.address
    && p.screenedBy == c.atDispatch && p.router in w.inventory && p.router.tenant == Some(p.tenant)
  }

  /** One call pushes to a router exactly when it is let through and the router is its tenant's. */
  lemma PushedIffGuardOpen(w: World, c: Call, p: Push)
    requires WellFormedCall(c)
    ensures p in PushesOf(w, c) <==> PushedBy(w, c, p) && p.tenant != ""
  {
    if Passes(w, c) {
      var rs := RoutersFor(w.inventory, Subject(w, c).1);
      RoutersForIsTheTenants(w.inventory, Subject(w, c).1, p.router);
      var ps := PushesOf(w, c);
      if PushedBy(w, c, p) && p.tenant != "" {
        var i :| 0 <= i < |rs| && rs[i] == p.router;
        assert ps[i] == p;
      }
    }
  }

  // ---- what a push says about its call ----

  /** The list could be read, and no network on it holds the address. */
  predicate ClearOf(a: Address, f: ListFile)
    requires WellFormed(f)
  {
    f.Readable? && forall i | 0 <= i < |f.lines| && f.lines[i].Entry? :: !Contains(f.lines[i].net, a)
  }

  /** The target is this address, the tenant this one or, for a name that is no slug, "unassigned". */
  predicate IsFor(target: Target, tenant: string, p: Push) {
    && target.Ip? && target.address == p.address
    && p.tenant == (if IsTenantSlug(tenant) then tenant else "unassigned")
  }

  /** What has to be so for call `c` to push `p`, path by path. */
  ghost predicate Admits(w: World, c: Call, p: Push)
    requires WellFormedCall(c)
  {
    && ClearOf(p.address, c.atCheck) && ClearOf(p.address, c.atDispatch) && p.screenedBy == c.atDispatch
    && p.router in w.inventory && p.router.tenant == Some(p.tenant)
    && match c
       case Isolate(target, mac, tenant, atAgent, _, _) =>
         && IsFor(target, tenant, p) && ClearOf(p.address, atAgent) && OtherText(target.text) !in atAgent.lines
         && (mac == "" || MacLine(mac) !in atAgent.lines)
       case Dispatch(target, tenant, _, _) => IsFor(target, tenant, p)
       case Alert(_, target, tenant, _, _) => IsFor(target, tenant, p) && w.autoBlock
       case Approve(id, _, _) =>
         && id != "" && id !in w.resolved
         && exists j: nat :: LastDraft(w.drafts, j, id) && IsFor(w.drafts[j].target, w.drafts[j].tenant, p)
  }

  lemma DraftIsFound(w: World, id: string)
    ensures FindDraft(w.drafts, id).Some? <==> exists j: nat :: LastDraft(w.drafts, j, id)
    ensures FindDraft(w.drafts, id).Some? ==>
      exists j: nat :: LastDraft(w.drafts, j, id) && w.drafts[j] == FindDraft(w.drafts, id).value
    ensures forall j: nat, k: nat :: LastDraft(w.drafts, j, id) && LastDraft(w.drafts, k, id) ==> j == k
  {
    if FindDraft(w.drafts, id).Some? { FindDraftIsTheLast(w.drafts, id, FindDraft(w.drafts, id).value); }
    if j: nat :| LastDraft(w.drafts, j, id) { FindDraftIsTheLast(w.drafts, id, w.drafts[j]); }
  }

  /** A call pushes exactly what its path admits: with auto-block on for an alert, with the MAC off the list for
      the agent, and for an approval only the draft filed under that very id. */
  lemma PushedIffAdmitted(w: World, c: Call, p: Push)
    requires WellFormedCall(c)
    ensures p in PushesOf(w, c) <==> Admits(w, c, p)
  {
    PushedIffGuardOpen(w, c, p);
    SlugIsNotEmpty();
    if c.Approve? { DraftIsFound(w, c.id); }
    assert ClearOf(p.address, c.atCheck) == Outside(p.address, c.atCheck);
    assert ClearOf(p.address, c.atDispatch) == Outside(p.address, c.atDispatch);
    if c.Isolate? { assert ClearOf(p.address, c.atAgent) == Outside(p.address, c.atAgent); }
  }

  lemma SlugIsNotEmpty()
    ensures forall tenant :: Slug(tenant) != ""
  {}

  /** And to every router of the tenant once, in inventory order. */
  lemma PushesInOrder(w: World, c: Call)
    requires WellFormedCall(c) && PushesOf(w, c) != []
    ensures var ps := PushesOf(w, c);
      && (forall i | 0 <= i < |ps| :: ps[i].address == ps[0].address && ps[i].tenant == ps[0].tenant)
      && Selects(w.inventory, RoutersAt(w.inventory, ps[0].tenant), seq(|ps|, i requires 0 <= i < |ps| => ps[i].router))
  {
    var ps, rs := PushesOf(w, c), RoutersFor(w.inventory, Subject(w, c).1);
    SlugIsNotEmpty();
    RoutersForIsTheTenants(w.inventory, Subject(w, c).1, rs[0]);
    RoutersForInOrder(w.inventory, Subject(w, c).1);
    assert seq(|ps|, i requires 0 <= i < |ps| => ps[i].router) == rs;
  }

  /** The address is outside every entry of the list as read at the dispatch, the list was readable, and
      the router belongs to the tenant. */
  ghost predicate Guarded(p: Push) {
    WellFormed(p.screenedBy) && Outside(p.address, p.screenedBy) && p.router.tenant == Some(p.tenant)
  }

  /** Over every run: a router received a block only for an address outside every entry of the list
      as read at that dispatch, with the list readable, and only if some call of the run admits it. */
  lemma {:induction false} EveryPushIsGuarded(ws: seq<World>, cs: seq<Call>, p: Push)
    requires Run(ws, cs) && p in ws[|cs|].pushes
    ensures Guarded(p)
    ensures exists i :: 0 <= i < |cs| && WellFormedCall(cs[i]) && Admits(ws[i], cs[i], p)
    decreases |cs|
  {
    var n := |cs| - 1;
    assert |cs| > 0;
    assert Steps(ws[n], cs[n], ws[n + 1]);
    if p in PushesOf(ws[n], cs[n]) {
      PushedIffAdmitted(ws[n], cs[n], p);
    } else {
      EveryPushIsGuarded(ws[..|cs|], cs[..n], p);
      var i :| 0 <= i < n && WellFormedCall(cs[..n][i]) && Admits(ws[..|cs|][i], cs[..n][i], p);
      assert WellFormedCall(cs[i]) && Admits(ws[i], cs[i], p);
    }
  }

  lemma NoRoutersIff(inventory: seq<RouterEntry>, tenant: string)
    requires tenant != ""
    ensures RoutersFor(inventory, tenant) == [] <==> forall r | r in inventory :: r.tenant != Some(tenant)
  {
    forall r ensures r in RoutersFor(inventory, tenant) <==> r in inventory && r.tenant == Some(tenant) {
      RoutersForIsTheTenants(inventory, tenant, r);
    }
    if RoutersFor(inventory, tenant) != [] { assert RoutersFor(inventory, tenant)[0] in RoutersFor(inventory, tenant); }
  }

  /** How an approval resolves its draft; a dispatch whose list cannot be decoded leaves it open. */
  predicate Resolves(before: map<string, Resolution>, after: map<string, Resolution>, id: string, d: Draft,
                     inventory: seq<RouterEntry>, atCheck: ListFile, atDispatch: ListFile)
    requires WellFormed(atCheck)
  {
    after ==
      if !d.target.Ip? || atCheck.Undecodable? then before[id := InvalidAddress]
      else if !ClearOf(d.target.address, atCheck) then before[id := ExclusionList]
      else if forall r | r in inventory :: r.tenant != Some(Slug(d.tenant)) then before[id := NoRoutersForTenant]
      else if atDispatch.Undecodable? then before
      else before[id := Approved]
  }

  // ---- the endpoints ----

  class Broker {
    const inventory: seq<RouterEntry>
    const autoBlock: bool
    var drafts: seq<Draft>
    var resolved: map<string, Resolution>
    var pushes: seq<Push>

    constructor (inventory: seq<RouterEntry>, autoBlock: bool)
      ensures Now() == World(inventory, autoBlock, [], map[], [])
    {
      this.inventory := inventory;
      this.autoBlock := autoBlock;
      drafts, resolved, pushes := [], map[], [];
    }

    ghost function Now(): World
      reads this
    {
      World(inventory, autoBlock, drafts, resolved, pushes)
    }

    /** dispatch_block_to_all: the list is read once more, right before the commands go out. */
    method DispatchBlockToAll(rs: seq<RouterEntry>, a: Address, tenant: string, f: ListFile) returns (raised: bool)
      requires WellFormed(f)
      modifies this`pushes
      ensures raised <==> f.Undecodable?
      ensures pushes == old(pushes) + if Outside(a, f) then Pushes(rs, a, tenant, f) else []
    {
      var screening := IsExcludedIp(a, f);
      if screening == Clear {
        pushes := pushes + Pushes(rs, a, tenant, f);
      }
      return screening == Raised;
    }

    /** POST /webhook/dispatch. */
    method WebhookDispatch(target: Target, tenant: string, atCheck: ListFile, atDispatch: ListFile)
      returns (executed: bool)
      requires WellFormed(atCheck) && WellFormed(atDispatch)
      modifies this`pushes
      ensures pushes == old(pushes) + PushesOf(old(Now()), Dispatch(target, tenant, atCheck, atDispatch))
      ensures executed <==>
        && target.Ip?
        && Outside(target.address, atCheck)
        && RoutersFor(inventory, Slug(tenant)) != []
        && !atDispatch.Undecodable?
    {
      executed := false;
      if target.Ip? {
        var screening := IsExcludedIp(target.address, atCheck);
        var rs := RoutersFor(inventory, Slug(tenant));
        if screening == Clear && rs != [] {
          var raised := DispatchBlockToAll(rs, target.address, Slug(tenant), atDispatch);
          executed := !raised;
        }
      }
    }

    /** _execute_isolation, for the autonomous path and after a human approval alike. */
    method ExecuteIsolation(target: Target, mac: string, tenant: string, atAgent: ListFile, atCheck: ListFile,
                            atDispatch: ListFile)
      returns (sent: bool)
      requires WellFormed(atAgent) && WellFormed(atCheck) && WellFormed(atDispatch)
      modifies this`pushes
      ensures sent <==>
        && target.Ip? && ClearOf(target.address, atAgent) && OtherText(target.text) !in atAgent.lines
        && (mac == "" || MacLine(mac) !in atAgent.lines)
      ensures pushes == old(pushes) + PushesOf(old(Now()), Isolate(target, mac, tenant, atAgent, atCheck, atDispatch))
    {
      sent := AgentClears(target, mac, atAgent);
      assert target.Ip? ==> ClearOf(target.address, atAgent) == Outside(target.address, atAgent);
      if sent {
        var _ := WebhookDispatch(target, tenant, atCheck, atDispatch);
      }
    }

    /** POST /webhook/alert: drafts for approval, or dispatches at once when auto-block is on. */
    method WebhookAlert(id: string, target: Target, tenant: string, atCheck: ListFile, atDispatch: ListFile)
      requires WellFormed(atCheck) && WellFormed(atDispatch)
      modifies this`pushes, this`drafts
      ensures pushes == old(pushes) + PushesOf(old(Now()), Alert(id, target, tenant, atCheck, atDispatch))
      ensures drafts == old(drafts) +
        if !autoBlock && target.Ip? && Outside(target.address, atCheck) && RoutersFor(inventory, Slug(tenant)) != []
        then [Draft(id, Slug(tenant), target)] else []
    {
      if target.Ip? {
        var screening := IsExcludedIp(target.address, atCheck);
        var rs := RoutersFor(inventory, Slug(tenant));
        if screening == Clear && rs != [] {
          if autoBlock {
            var _ := DispatchBlockToAll(rs, target.address, Slug(tenant), atDispatch);
          } else {
            drafts := drafts + [Draft(id, Slug(tenant), target)];
          }
        }
      }
    }

    /** POST /approve. A list that cannot be decoded is reported as an invalid address. */
    method ApproveDraft(id: string, atCheck: ListFile, atDispatch: ListFile)
      requires WellFormed(atCheck) && WellFormed(atDispatch)
      modifies this`pushes, this`resolved
      ensures pushes == old(pushes) + PushesOf(old(Now()), Approve(id, atCheck, atDispatch))
      ensures
        if id == "" || id in old(resolved) || FindDraft(drafts, id).None?
        then resolved == old(resolved) && pushes == old(pushes)
        else Resolves(old(resolved), resolved, id, FindDraft(drafts, id).value, inventory, atCheck, atDispatch)
    {
      if id == "" || id in resolved || FindDraft(drafts, id).None? { return; }
      var draft := FindDraft(drafts, id).value;
      assert draft.target.Ip? ==> ClearOf(draft.target.address, atCheck) == Outside(draft.target.address, atCheck);
      var screening := Raised;
      if draft.target.Ip? { screening := IsExcludedIp(draft.target.address, atCheck); }
      if screening == Raised { resolved := resolved[id := InvalidAddress]; return; }
      if screening == Excluded {
        resolved := resolved[id := ExclusionList];
        return;
      }
      var rs := RoutersFor(inventory, Slug(draft.tenant));
      NoRoutersIff(inventory, Slug(draft.tenant));
      if rs == [] { resolved := resolved[id := NoRoutersForTenant]; return; }
      var raised := DispatchBlockToAll(rs, draft.target.address, Slug(draft.tenant), atDispatch);
      if !raised { resolved := resolved[id := Approved]; }
    }

    /** Any sequence of calls, each with the list as it is whenever it is read. */
    method Serve(calls: seq<Call>) returns (ghost ws: seq<World>)
      requires pushes == [] && forall c | c in calls :: WellFormedCall(c)
      modifies this`pushes, this`drafts, this`resolved
      ensures Run(ws, calls) && ws[0] == old(Now()) && ws[|calls|] == Now()
      ensures forall p | p in pushes :: Guarded(p)
    {
      ws := [Now()];
      for i := 0 to |calls|
        invariant |ws| == i + 1 && ws[0] == old(Now()) && ws[i] == Now()
        invariant forall n | 0 <= n < i :: Steps(ws[n], calls[n], ws[n + 1])
      {
        assert calls[i] in calls;
        match calls[i] {
          case Isolate(target, mac, tenant, atAgent, atCheck, atDispatch) =>
            var _ := ExecuteIsolation(target, mac, tenant, atAgent, atCheck, atDispatch);
          case Dispatch(target, tenant, atCheck, atDispatch) =>
            var _ := WebhookDispatch(target, tenant, atCheck, atDispatch);
          case Alert(id, target, tenant, atCheck, atDispatch) =>
            WebhookAlert(id, target, tenant, atCheck, atDispatch);
          case Approve(id, atCheck, atDispatch) =>
            ApproveDraft(id, atCheck, atDispatch);
        }
        assert Steps(ws[i], calls[i], Now());
        ws := ws + [Now()];
      }
      forall p | p in pushes ensures Guarded(p) { EveryPushIsGuarded(ws, calls, p); }
    }
  }
}
