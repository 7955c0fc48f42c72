/** The credentials of one process and the rules by which the kernel lets it change them, as
    capabilities(7), prctl(2) and setuid(2) give them. */
module Credentials {
  import opened Wrappers

  datatype Cap = SETPCAP | SETGID | SETUID | SYS_ADMIN | Other(number: nat)

  /** The five capability sets, keepcaps, the ids, and the two one-way switches. */
  datatype Creds = Creds(
    eff: set<Cap>, perm: set<Cap>, inh: set<Cap>, amb: set<Cap>, bnd: set<Cap>, keep: bool,
    ruid: nat, euid: nat, suid: nat, gid: nat, groups: seq<nat>, noNewPrivs: bool, filtered: bool)

  datatype Call =
    | SetEffective(caps: set<Cap>)
    | SetPermitted(caps: set<Cap>)
    | SetInheritable(caps: set<Cap>)
    | ClearAmbient
    | RaiseAmbient(cap: Cap)
    | CapBsetDrop(cap: Cap)
    | KeepCaps(keep: bool)
    | SetGroups(groups: seq<nat>)
    | SetGid(gid: nat)
    | SetUid(uid: nat)
    | NoNewPrivs
    | LoadFilter

  /** capset(2): no set outgrows what bounds it, and the ambient set follows. */
  function CapSet(c: Creds, eff: set<Cap>, perm: set<Cap>, inh: set<Cap>): Option<Creds> {
    if SETPCAP !in c.eff && !(inh <= c.inh + c.perm) then None
    else if !(inh <= c.inh + c.bnd) then None
    else if !(perm <= c.perm) || !(eff <= perm) then None
    else Some(c.(eff := eff, perm := perm, inh := inh, amb := c.amb * perm * inh))
  }

  predicate AnyRoot(c: Creds) {
    c.ruid == 0 || c.euid == 0 || c.suid == 0
  }

  /** What a change of user ids does to the capability sets: `ids` has the new ids. */
  function AfterUids(c: Creds, ids: Creds): Creds {
    var leaves := AnyRoot(c) && !AnyRoot(ids);
    var perm := if leaves && !c.keep then {} else c.perm;
    var eff :=
      if leaves && !c.keep then {}
      else if c.euid == 0 && ids.euid != 0 then {}
      else if c.euid != 0 && ids.euid == 0 then perm
      else c.eff;
    ids.(eff := eff, perm := perm, amb := if leaves then {} else c.amb)
  }

  /** One system call, or its refusal. */
  function Sys(c: Creds, call: Call): Option<Creds> {
    match call
    case SetEffective(caps) => CapSet(c, caps, c.perm, c.inh)
    case SetPermitted(caps) => CapSet(c, c.eff, caps, c.inh)
    case SetInheritable(caps) => CapSet(c, c.eff, c.perm, caps)
    case ClearAmbient => Some(c.(amb := {}))
    case RaiseAmbient(cap) => if cap in c.perm && cap in c.inh then Some(c.(amb := c.amb + {cap})) else None
    case CapBsetDrop(cap) => if SETPCAP in c.eff then Some(c.(bnd := c.bnd - {cap})) else None
    case KeepCaps(keep) => Some(c.(keep := keep))
    case SetGroups(groups) => if SETGID in c.eff then Some(c.(groups := groups)) else None
    case SetGid(gid) => if SETGID in c.eff || gid == c.gid then Some(c.(gid := gid)) else None
    case SetUid(uid) =>
      if SETUID in c.eff then Some(AfterUids(c, c.(ruid := uid, euid := uid, suid := uid)))
      else if uid == c.ruid || uid == c.suid then Some(AfterUids(c, c.(euid := uid)))
      else None
    case NoNewPrivs => Some(c.(noNewPrivs := true))
    case LoadFilter => if c.noNewPrivs || SYS_ADMIN in c.eff then Some(c.(filtered := true)) else None
  }

  /** A sequence of calls, none of which may be refused. */
  function Exec(c: Creds, calls: seq<Call>): Option<Creds>
    decreases |calls|
  {
    if calls == [] then Some(c)
    else if Sys(c, calls[0]).None? then None
    else Exec(Sys(c, calls[0]).value, calls[1..])
  }

  lemma {:induction false} ExecOfConcat(c: Creds, a: seq<Call>, b: seq<Call>)
    ensures Exec(c, a + b) == if Exec(c, a).None? then None else Exec(Exec(c, a).value, b)
    decreases |a|
  {
    if a == [] {
      assert a + b == b;
    } else {
      assert (a + b)[1..] == a[1..] + b;
      if Sys(c, a[0]).Some? { ExecOfConcat(Sys(c, a[0]).value, a[1..], b); }
    }
  }

  // ---- What every call keeps ------------------------------------------------------------------------------

  predicate Sound(c: Creds) {
    c.eff <= c.perm && c.amb <= c.perm * c.inh
  }

  /** `d` has no privilege that `c` could not use: both limiting sets shrink, the switches stay on. */
  predicate NoMoreThan(d: Creds, c: Creds) {
    d.perm <= c.perm && d.bnd <= c.bnd && (c.noNewPrivs ==> d.noNewPrivs) && (c.filtered ==> d.filtered)
  }

  lemma SysKeepsSound(c: Creds, call: Call)
    requires Sound(c) && Sys(c, call).Some?
    ensures Sound(Sys(c, call).value) && NoMoreThan(Sys(c, call).value, c)
  {
  }

  /** After any number of calls, in any order, from any sound credentials. */
  lemma {:induction false} ExecKeepsSound(c: Creds, calls: seq<Call>)
    requires Sound(c) && Exec(c, calls).Some?
    ensures Sound(Exec(c, calls).value) && NoMoreThan(Exec(c, calls).value, c)
    decreases |calls|
  {
    if calls != [] {
      SysKeepsSound(c, calls[0]);
      ExecKeepsSound(Sys(c, calls[0]).value, calls[1..]);
    }
  }

  lemma LogGrows(start: Creds, done: seq<Call>, at: Creds, call: Call)
    requires Exec(start, done) == Some(at)
    ensures Exec(start, done + [call]) == Sys(at, call)
  {
    ExecOfConcat(start, done, [call]);
    assert [call][1..] == [];
  }

  /** The process. Its credentials change only by calls, and each granted call is logged, so the log
      leads from the credentials it began with to those it has. */
  class Thread {
    const origin: Creds
    var creds: Creds
    var calls: seq<Call>

    ghost predicate Valid()
      reads this
    {
      Sound(origin) && Exec(origin, calls) == Some(creds)
    }

    constructor (creds: Creds)
      requires Sound(creds)
      ensures Valid() && this.creds == creds && origin == creds && calls == []
    {
      origin, this.creds, calls := creds, creds, [];
    }

    method Do(call: Call) returns (ok: bool)
      requires Valid()
      modifies this
      ensures Valid()
      ensures ok <==> Sys(old(creds), call).Some?
      ensures creds == if ok then Sys(old(creds), call).value else old(creds)
      ensures calls == if ok then old(calls) + [call] else old(calls)
    {
      LogGrows(origin, calls, creds, call);
      match Sys(creds, call) {
        case None => ok := false;
        case Some(after) =>
          creds := after;
          calls := calls + [call];
          ok := true;
      }
    }
  }

  /** At every moment of its life a process is sound, and has no more privilege than it had at any
      moment before. */
  lemma ThreadIsAlwaysSound(thread: Thread, j: nat, k: nat)
    requires thread.Valid() && j <= k <= |thread.calls|
    ensures Exec(thread.origin, thread.calls[..j]).Some? && Exec(thread.origin, thread.calls[..k]).Some?
    ensures Sound(Exec(thread.origin, thread.calls[..k]).value)
    ensures NoMoreThan(Exec(thread.origin, thread.calls[..k]).value, Exec(thread.origin, thread.calls[..j]).value)
  {
    var calls := thread.calls;
    assert calls == calls[..k] + calls[k..] && calls[..k] == calls[..j] + calls[j..k];
    ExecOfConcat(thread.origin, calls[..k], calls[k..]);
    ExecOfConcat(thread.origin, calls[..j], calls[j..k]);
    ExecKeepsSound(thread.origin, calls[..j]);
    ExecKeepsSound(Exec(thread.origin, calls[..j]).value, calls[j..k]);
  }
}
