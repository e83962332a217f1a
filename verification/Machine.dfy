/** Any number of requests in flight over one set of tables, interleaved call by call. */
module Machine {
  import opened Schema
  import opened Calls
  import opened Program

  /** One request in flight, with what is worth remembering about it. */
  datatype Proc = Proc(
    request: Request,
    pc: Pc,
    exchanges: nat,                 // how often it presented an authorization code
    wrote: bool,                    // whether any of its calls changed a table
    recorded: Option<EventKey>,     // the webhook event it inserted
    entered: Option<string>,        // the OAuth state it consumed
    consumeTime: Option<int>,       // the database's time at its consume
    faulted: bool)                  // whether a statement of it failed outright

  datatype State = State(
    settings: Settings,
    world: World,
    procs: map<nat, Proc>,
    keys: set<string>,              // API keys drawn so far
    owner: map<EventKey, nat>)      // which request recorded which event

  datatype Label =
    | Arrive(pid: nat, request: Request)
    | Act(pid: nat, reply: Reply)
    | Tick(now: int)

  function DrawnKey(req: Request): Option<string> {
    match req
    case Callback(_, _, key) => key
    case Register(_, _, _, key) => key
    case _ => None
  }

  function Keys(req: Request): set<string> {
    match DrawnKey(req) case Some(k) => {k} case None => {}
  }

  function Arrived(settings: Settings, req: Request): Proc {
    Proc(req, Start(settings, req), 0, false, None, None, None, false)
  }

  function Advance(p: Proc, r: Reply, w: World, w': World): Proc
    requires !p.pc.Done?
  {
    var call := NextCall(p.pc);
    Proc(p.request, Resume(p.pc, r),
         p.exchanges + (if call.ExchangeCode? then 1 else 0),
         p.wrote || w'.tables != w.tables,
         if call.CreateEvent? && r.Ack? then Some(call.key) else p.recorded,
         if call.ConsumeState? && r.FoundState? then Some(call.state) else p.entered,
         if call.ConsumeState? then Some(w.clock) else p.consumeTime,
         p.faulted || Fault(r))
  }

  ghost predicate Step(s: State, l: Label, s': State) {
    && s'.settings == s.settings
    && match l
       case Arrive(pid, req) =>
         // 32 random bytes: a drawn key is not blank and was never drawn before
         && pid !in s.procs
         && (forall k :: k in Keys(req) ==> !Blank(k) && k !in s.keys)
         && s' == s.(procs := s.procs[pid := Arrived(s.settings, req)], keys := s.keys + Keys(req))
       case Act(pid, r) =>
         && pid in s.procs
         && !s.procs[pid].pc.Done?
         && var call := NextCall(s.procs[pid].pc);
         && Answers(s.world, call, r, s'.world)
         && s'.procs == s.procs[pid := Advance(s.procs[pid], r, s.world, s'.world)]
         && s'.keys == s.keys
         && s'.owner == if call.CreateEvent? && r.Ack? then s.owner[call.key := pid] else s.owner
       case Tick(now) =>
         s.world.clock <= now && s' == s.(world := s.world.(clock := now))
  }

  /** A finite run; a request that is never scheduled again has crashed. */
  datatype Run = From(start: State) | Then(before: Run, step: Label, after: State)

  function Last(r: Run): State {
    match r case From(s) => s case Then(_, _, s) => s
  }

  function First(r: Run): State {
    match r case From(s) => s case Then(b, _, _) => First(b)
  }

  /** Nobody is in flight, and the history starts now. */
  ghost predicate Initial(s: State) {
    && s.procs == map[] && s.keys == {} && s.owner == map[]
    && s.world.history == NO_HISTORY
    && s.world.tables == EMPTY_TABLES  // just migrated
    && (forall l :: l in s.world.upstream.configs ==> s.world.upstream.configs[l].locationId == l)
  }

  ghost predicate Valid(r: Run) {
    match r
    case From(s) => Initial(s)
    case Then(b, l, s) => Valid(b) && Step(Last(b), l, s)
  }

  // ---- What holds of the tables in every run ----

  lemma StepKeepsSchema(s: State, l: Label, s': State)
    requires SchemaInv(s.world.tables) && Step(s, l, s')
    ensures SchemaInv(s'.world.tables) && Evolves(s.world, s'.world)
  {
    if l.Act? {
      var call := NextCall(s.procs[l.pid].pc);
      CallTablesEvolve(s.world, call, l.reply, s'.world);
      CallOutsideEvolves(s.world, call, l.reply, s'.world);
    }
  }

  /** Foreign keys, unique (client, platform) pairs and ids below the counter hold throughout. */
  lemma {:induction false} RunKeepsSchema(r: Run)
    requires Valid(r)
    ensures SchemaInv(Last(r).world.tables)
  {
    if r.Then? {
      RunKeepsSchema(r.before);
      StepKeepsSchema(Last(r.before), r.step, r.after);
    }
  }
}
