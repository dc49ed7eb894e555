/**
 * The wire between the client and the server: every write is one call, and every call is answered
 * the way a script says.  A script is any function, so what holds for all scripts holds for every
 * combination of call results.
 */
module Wire {
  import opened Basics
  import opened Manifest
  import opened Directory
  import opened Network

  /**
   * Accept: carried out, with a response body.  AcceptBare: carried out, without one.
   * Refuse: not carried out, an error.  Lose: carried out, but the caller sees an error.
   */
  datatype Outcome = Accept | AcceptBare | Refuse | Lose

  type Script = nat -> Outcome

  datatype Call = OnDirectory(d: DirectoryCall) | OnNetwork(n: NetCall)

  /** An answer's id and version are those of its body, when it has one. */
  datatype Reply = Answer(body: Option<(Id, nat)>) | Failure

  datatype World = World(dir: Directory, net: NetState, trace: seq<Call>)

  predicate Allowed(w: World, c: Call) {
    match c
    case OnDirectory(d) => Permits(w.dir, d)
    case OnNetwork(n) => NetPermits(w.net, n)
  }

  function CarriedOut(w: World, c: Call): World {
    if !Allowed(w, c) then w
    else match c
      case OnDirectory(d) => w.(dir := Effect(w.dir, d))
      case OnNetwork(n) => w.(net := NetEffect(w.net, n))
  }

  /** The id and version of the object a successful write answers with. */
  function ResponseOf(w: World, c: Call): (Id, nat) {
    match c
    case OnDirectory(CreateEntity(_, _, _, _, _, _, _)) => (w.dir.nextId, 0)
    case OnDirectory(UpdateEntity(_, id, _, _, _)) => (id, 0)
    case OnNetwork(CreateSegment(_, _, _, _, _, _, _)) => (w.net.nextId, 1)
    case OnNetwork(ReplaceSegment(id, version, _, _, _, _)) => (id, version + 1)
    case _ => (0, 0)
  }

  function Issue(w: World, c: Call, o: Outcome): (World, Reply) {
    var sent := w.(trace := w.trace + [c]);
    if o == Refuse || !Allowed(w, c) then (sent, Failure)
    else (CarriedOut(sent, c),
          match o
          case Accept => Answer(Some(ResponseOf(w, c)))
          case AcceptBare => Answer(None)
          case _ => Failure)
  }

  /** list_profiles: each row as read, its timeout under the cap. */
  function ReadProfiles(t: NetState): (rows: seq<ProfileRow>)
    ensures |rows| == |t.profiles|
    ensures forall i :: 0 <= i < |rows| ==>
      rows[i] == ProfileRow(t.profiles[i].segment, Effective(t.profiles[i].profile, t.cap))
  {
    seq(|t.profiles|, i requires 0 <= i < |t.profiles| => ProfileRow(t.profiles[i].segment, Effective(t.profiles[i].profile, t.cap)))
  }

  /**
   * The client's handle: the only way the model's imperative code reaches the server.  A read may
   * fail; it never moves the server.
   */
  class Client {
    var world: World
    var readCount: nat
    const script: Script
    const answers: nat -> bool

    constructor (world: World, script: Script, answers: nat -> bool)
      ensures this.world == world && this.script == script && this.answers == answers && readCount == 0
    {
      this.world := world;
      this.script := script;
      this.answers := answers;
      readCount := 0;
    }

    method Send(c: Call) returns (r: Reply)
      modifies this`world
      ensures (world, r) == Issue(old(world), c, script(|old(world.trace)|))
    {
      var answered := Issue(world, c, script(|world.trace|));
      world := answered.0;
      r := answered.1;
    }

    method Read() returns (ok: bool)
      modifies this`readCount
      ensures readCount == old(readCount) + 1 && ok == answers(old(readCount))
    {
      ok := answers(readCount);
      readCount := readCount + 1;
    }

    method List(k: Kind) returns (r: Option<seq<Row>>)
      modifies this`readCount
      ensures readCount == old(readCount) + 1
      ensures r == if answers(old(readCount)) then Some(ReadExisting(world.dir, k)) else None
    {
      var ok := Read();
      r := if ok then Some(ReadExisting(world.dir, k)) else None;
    }

    method ListRoles(subject: Id) returns (r: Option<seq<HeldRole>>)
      modifies this`readCount
      ensures readCount == old(readCount) + 1
      ensures r == if answers(old(readCount)) then Some(ReadBindings(world.dir, subject)) else None
    {
      var ok := Read();
      r := if ok then Some(ReadBindings(world.dir, subject)) else None;
    }

    method GetPolicy() returns (r: Option<(int, nat)>)
      modifies this`readCount
      ensures readCount == old(readCount) + 1
      ensures r == if answers(old(readCount)) then Some((world.net.cap, world.net.capVersion)) else None
    {
      var ok := Read();
      r := if ok then Some((world.net.cap, world.net.capVersion)) else None;
    }

    method ListSegments() returns (r: Option<seq<Segment>>)
      modifies this`readCount
      ensures readCount == old(readCount) + 1
      ensures r == if answers(old(readCount)) then Some(world.net.segments) else None
    {
      var ok := Read();
      r := if ok then Some(world.net.segments) else None;
    }

    method ListProfiles() returns (r: Option<seq<ProfileRow>>)
      modifies this`readCount
      ensures readCount == old(readCount) + 1
      ensures r == if answers(old(readCount)) then Some(ReadProfiles(world.net)) else None
    {
      var ok := Read();
      r := if ok then Some(ReadProfiles(world.net)) else None;
    }
  }
}
