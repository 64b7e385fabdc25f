/** What a process gets for the areas it names with SYS5: its exceptions, end to end. */
module NucleusHandlers {
  import opened Queues
  import opened Family
  import opened Processor
  import opened NucleusState
  import opened NucleusInvariant
  import opened NucleusKill
  import opened NucleusRuns
  import opened NucleusService
  import opened NucleusCalls
  import opened NucleusCode

  /** s is a state in which process p makes a SYS5 call in state c that does not kill it, and t
      one after it, once the run is over, in which p, which has survived, is running again. */
  ghost predicate Since(s: State, p: Pid, kind: nat, v: Vector, c: Cpu, run: seq<Event>, t: State)
  {
    && Sound(s) && s.current == Some(p) && kind < 3
    && Enabled(s, Exec(SetVector(kind, v), c)) && !Kills(s, SetVector(kind, v))
    && var u := Step(s, Exec(SetVector(kind, v), c));
      Legal(u, run) && Survives(u, run, p) && t == After(u, run) && t.current == Some(p)
  }

  /** p still has the areas it named. */
  lemma StillNamed(s: State, p: Pid, kind: nat, v: Vector, c: Cpu, run: seq<Event>, t: State)
    requires Since(s, p, kind, v, c, run, t) && v != Vector(NULLADDR, NULLADDR)
    ensures Sound(t) && HasCurrent(t) && t.current == Some(p) && p < t.k.maxProc && kind < 3
    ensures p < |t.vectors| && |t.vectors[p]| == 3 && t.vectors[p][kind] == v
    ensures HasVector(t, kind) <==> v.oldArea != NULLADDR && v.newArea != NULLADDR
  {
    StepSound(s, Exec(SetVector(kind, v), c));
    VectorStored(s, c, kind, v);
    NamedForGood(Step(s, Exec(SetVector(kind, v), c)), run, p, kind);
  }

  /** An exception of the kind for which a process has named two areas: whatever has happened
      since, the state it was interrupted in is stored at the old area's address, and the
      process goes on in the state that the new area holds. */
  method ExceptionPassedUp(n: Nucleus, kind: nat, oldState: Cpu, ghost s: State, ghost p: Pid, ghost v: Vector,
                           ghost c: Cpu, ghost run: seq<Event>)
    requires n.Rep() && Since(s, p, kind, v, c, run, n.s) && v.oldArea != 0xFFFF_FFFF && v.newArea != 0xFFFF_FFFF
    modifies n, n.Foot()
    ensures n.Rep() && n.currentProcess == old(n.currentProcess)
    ensures n.areas == old(n.areas)[v.oldArea := oldState]
    ensures n.cpu == if v.newArea in n.areas then n.areas[v.newArea] else n.zero
  {
    hide Nucleus.Rep, Since, Sound, HasVector, HasCurrent;
    StillNamed(s, p, kind, v, c, run, n.s);
    n.Parts();
    n.AreasAt(p, kind);
    n.PassUpOrDie(oldState, kind);
  }

  /** With one area only the exception is the end of the process: it and its progeny die. */
  lemma ExceptionKills(s: State, p: Pid, kind: nat, v: Vector, c: Cpu, run: seq<Event>, t: State, handler: Cpu)
    requires Since(s, p, kind, v, c, run, t) && (v.oldArea == 0xFFFF_FFFF) != (v.newArea == 0xFFFF_FFFF)
    ensures HasCurrent(t) && kind < 3 && PassUpOrDie(t, kind, handler) == TerminateProcess(t)
  {
    StillNamed(s, p, kind, v, c, run, t);
  }
}
