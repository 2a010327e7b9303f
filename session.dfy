/** One running CLI session (`src/session.ts`), with the `type` field that
    the menus and the registry use. The name, project and id are set once
    by the constructor and never reassigned anywhere, so they are
    constants here. The class shown in the source has no
    `type`, `withType` or `equals`; here the type is a plain field that
    defaults to `Serve` (the only type the serve flow never sets) and is
    set by `WithType`, and two sessions are equal when their type and
    project are. */
module Sessions {
  import opened Wrappers

  datatype SessionType = Serve | Build | Sourcemap

  /** `${session.type}`. */
  function TypeName(t: SessionType): (name: string)
    ensures name != ""
  {
    match t
    case Serve => "Serve"
    case Build => "Build"
    case Sourcemap => "Sourcemap"
  }

  /** Distinct types print differently. */
  lemma TypeNameInjective(a: SessionType, b: SessionType)
    requires TypeName(a) == TypeName(b)
    ensures a == b
  {
  }

  /** What a stored session hands back for restoring it: its project, its
      `host:port` address, and the port it asked for before a conflict
      (`undefined` as `None`). The source uses this shape without showing
      its declaration. */
  datatype RestorableSession = RestorableSession(project: string, address: Option<string>, originalPort: Option<int>)

  class Session {
    /** The clock reading when the session was created (`Date.now()`). */
    const started: int
    const name: string
    const project: string
    const id: int
    var address: Option<string>
    var sessionType: SessionType

    /** `new Session(name, project, id)` at clock reading `now`. */
    constructor(name: string, project: string, id: int, now: int)
      ensures this.name == name && this.project == project && this.id == id
      ensures address.None? && sessionType == Serve && started == now
    {
      this.name := name;
      this.project := project;
      this.id := id;
      this.address := None;
      this.sessionType := Serve;
      this.started := now;
    }

    /** `withAddress(address)`: sets the address and returns the same
        object, leaving everything else alone. */
    method WithAddress(address: string) returns (self: Session)
      modifies this
      ensures self == this
      ensures this.address == Some(address)
      ensures sessionType == old(sessionType)
    {
      this.address := Some(address);
      self := this;
    }

    /** `withType(type)`: sets the type and returns the same object. */
    method WithType(t: SessionType) returns (self: Session)
      modifies this
      ensures self == this
      ensures sessionType == t
      ensures address == old(address)
    {
      sessionType := t;
      self := this;
    }

    /** `duration` at clock reading `now`: the time since creation. */
    function Duration(now: int): (d: int)
      ensures started + d == now
      ensures now >= started ==> d >= 0
    {
      now - started
    }

    /** `equals`: same type and same project. */
    predicate Equals(other: Session)
      reads this, other
    {
      sessionType == other.sessionType && project == other.project
    }
  }

  /** The duration grows exactly as the clock does. */
  lemma DurationTracksClock(s: Session, t1: int, t2: int)
    ensures s.Duration(t2) - s.Duration(t1) == t2 - t1
    ensures s.Duration(s.started) == 0
  {
  }
}
