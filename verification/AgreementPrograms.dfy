/**
 * What the broker's programs do to the presence of one agent in the dictionaries: every handler registers
 * an agent before it adds its other entries, and follows up; every removal starts with the registry.
 */
module AgreementPrograms {
  import opened Wrappers
  import opened Json
  import opened BrokerState
  import opened LockPrograms

  // ---- business with an agent ---------------------------------------------------------

  predicate Adds(i: Instr, a: AgentId) {
    match i
    case Access(RegistryPut(ep)) => ep.agentId == a
    case Access(CapabilitiesPut(b, _)) => b == a
    case Access(CapabilitiesDefault(b)) => b == a
    case Access(HeartbeatStamp(b, _)) => b == a
    case Access(HeartbeatDefault(b)) => b == a
    case Access(MailboxDefault(b)) => b == a
    case Enqueue(b) => b == a
    case _ => false
  }

  predicate Drops(i: Instr, a: AgentId) {
    match i
    case Access(RegistryDrop(b)) => b == a
    case Access(CapabilitiesDrop(b)) => b == a
    case Access(HeartbeatDrop(b)) => b == a
    case Access(MailboxDrop(b)) => b == a
    case _ => false
  }

  /** The program may still put `a` into a dictionary: a registration, a poll before it finds its mailbox, a send. */
  predicate MayAdd(p: Prog, a: AgentId)
    decreases p
  {
    match p
    case Done => false
    case If(_, yes, no) => MayAdd(yes, a) || MayAdd(no, a)
    case Do(i, k) => Adds(i, a) || MayAdd(k, a)
  }

  /** The program may still take `a` out of a dictionary: a deregistration, or a round of the sweep on `a`. */
  predicate MayDrop(p: Prog, a: AgentId)
    decreases p
  {
    match p
    case Done => false
    case If(_, yes, no) => MayDrop(yes, a) || MayDrop(no, a)
    case Do(i, k) => Drops(i, a) || MayDrop(k, a)
  }

  // ---- presence ----------------------------------------------------------------------

  /** Which dictionaries know an agent; `flag` says that it is registered as a mailbox. */
  datatype Bits = Bits(reg: bool, flag: bool, caps: bool, beat: bool, ttl: bool, box: bool)

  predicate Agreed(b: Bits) {
    b.caps == b.reg && b.beat == b.reg && b.ttl == b.reg && (b.box ==> b.reg) && (b.flag ==> b.box)
  }

  function OpBits(op: Op, isNew: bool, b: Bits, a: AgentId): Bits {
    match op
    case RegistryPut(ep) => if ep.agentId == a then b.(reg := true, flag := ep.mailbox) else b
    case RegistryDrop(c) => if c == a then b.(reg := false, flag := false) else b
    case CapabilitiesPut(c, _) => if c == a then b.(caps := true) else b
    case CapabilitiesDefault(c) => if c == a then b.(caps := true) else b
    case CapabilitiesDrop(c) => if c == a then b.(caps := false) else b
    case HeartbeatStamp(c, given) => if c == a then b.(beat := true, ttl := b.ttl || given.Some? || isNew) else b
    case HeartbeatDefault(c) => if c == a then b.(beat := true, ttl := true) else b
    case HeartbeatDrop(c) => if c == a then b.(beat := false, ttl := false) else b
    case MailboxDefault(c) => if c == a then b.(box := true) else b
    case MailboxDrop(c) => if c == a then b.(box := false) else b
    case _ => b
  }

  function InstrBits(i: Instr, isNew: bool, b: Bits, a: AgentId): Bits {
    match i
    case Access(op) => OpBits(op, isNew, b, a)
    case Enqueue(c) => if c == a then b.(box := true) else b
    case _ => b
  }

  // ---- what a program is sure to do -----------------------------------------------------

  datatype Part = Caps | Beat | Ttl | Box

  predicate Present(b: Bits, part: Part) {
    match part
    case Caps => b.caps
    case Beat => b.beat
    case Ttl => b.ttl
    case Box => b.box
  }

  predicate GivesNow(i: Instr, isNew: bool, a: AgentId, part: Part) {
    match i
    case Access(CapabilitiesPut(b, _)) => part.Caps? && b == a
    case Access(CapabilitiesDefault(b)) => part.Caps? && b == a
    case Access(HeartbeatStamp(b, given)) => b == a && (part.Beat? || (part.Ttl? && (given.Some? || isNew)))
    case Access(HeartbeatDefault(b)) => b == a && (part.Beat? || part.Ttl?)
    case Access(MailboxDefault(b)) => part.Box? && b == a
    case _ => false
  }

  /** The steps after which nothing is certain here: a fresh lookup, a wait, a loop. */
  predicate Unsettles(i: Instr) {
    i.PollBox? || i.ForEachAgent? || i.ForEachEndpoint? || (i.Access? && i.op.RegistryLookup?)
  }

  /** Whatever branches it takes, the program will put `a` into that dictionary. */
  predicate Gives(p: Prog, isNew: bool, a: AgentId, part: Part)
    decreases p
  {
    match p
    case Done => false
    case If(_, yes, no) => Gives(yes, isNew, a, part) && Gives(no, isNew, a, part)
    case Do(i, k) => GivesNow(i, isNew, a, part) || (!Unsettles(i) && Gives(k, isNew, a, part))
  }

  predicate TakesNow(i: Instr, a: AgentId, part: Part) {
    match i
    case Access(CapabilitiesDrop(b)) => part.Caps? && b == a
    case Access(HeartbeatDrop(b)) => (part.Beat? || part.Ttl?) && b == a
    case Access(MailboxDrop(b)) => part.Box? && b == a
    case _ => false
  }

  predicate Takes(p: Prog, a: AgentId, part: Part)
    decreases p
  {
    match p
    case Done => false
    case If(_, yes, no) => Takes(yes, a, part) && Takes(no, a, part)
    case Do(i, k) => TakesNow(i, a, part) || (!Unsettles(i) && Takes(k, a, part))
  }

  /** The removal has not begun: the registry entry is still to go. */
  predicate Untouched(p: Prog, a: AgentId)
    decreases p
  {
    match p
    case Done => false
    case If(_, yes, no) => Untouched(yes, a) || Untouched(no, a)
    case Do(i, k) => i == Access(RegistryDrop(a)) || Untouched(k, a)
  }

  predicate Idle(p: Prog, a: AgentId) {
    !MayAdd(p, a) && !MayDrop(p, a)
  }

  /**
   * The program adds `a` to other dictionaries only once it is registered, follows a registration up with the
   * other entries, and removes from the registry first and then from everywhere. `known` is what its last
   * lookup found, `reg` whether `a` is registered now.
   */
  predicate Sound(p: Prog, known: bool, a: AgentId, reg: bool)
    decreases p
  {
    match p
    case Done => true
    case If(test, yes, no) =>
      && ((test.Found? || test.FoundMailbox? ==> known) ==> Sound(yes, known, a, reg))
      && ((test.Found? ==> !known) ==> Sound(no, known, a, reg))
      && (MayDrop(yes, a) ==> Untouched(yes, a)) && (MayDrop(no, a) ==> Untouched(no, a))
    case Do(i, k) =>
      if i.Access? && i.op.RegistryLookup? then
        Sound(k, false, a, reg) && Sound(k, true, a, reg || i.op.a == a)
      else if i.Access? && i.op.RegistryPut? && i.op.ep.agentId == a then
        && Sound(k, known, a, true)
        && Gives(k, !known, a, Caps) && Gives(k, !known, a, Beat) && (Gives(k, !known, a, Ttl) || reg)
        && (i.op.ep.mailbox ==> Gives(k, !known, a, Box))
      else if Adds(i, a) then reg && Sound(k, known, a, reg)
      else if i == Access(RegistryDrop(a)) then
        && Takes(k, a, Caps) && Takes(k, a, Beat) && Takes(k, a, Box)
        && !Untouched(k, a) && !MayAdd(k, a) && Sound(k, known, a, false)
      else if Drops(i, a) then !Untouched(k, a) && Sound(k, known, a, reg)
      else if i.PollBox? || i.ForEachAgent? || i.ForEachEndpoint? then Idle(k, a)
      else Sound(k, known, a, reg)
  }

  lemma {:induction false} IdleSound(p: Prog, known: bool, a: AgentId, reg: bool)
    requires Idle(p, a)
    ensures Sound(p, known, a, reg) && !Untouched(p, a)
    decreases p
  {
    match p
    case Done =>
    case If(_, yes, no) =>
      IdleSound(yes, known, a, reg);
      IdleSound(no, known, a, reg);
    case Do(i, k) =>
      IdleSound(k, known, a, reg);
      IdleSound(k, false, a, reg);
      IdleSound(k, true, a, true);
      IdleSound(k, true, a, reg);
  }

  lemma {:induction false} SoundGrows(p: Prog, known: bool, a: AgentId)
    requires Sound(p, known, a, false)
    ensures Sound(p, known, a, true)
    decreases p
  {
    match p
    case Done =>
    case If(_, yes, no) =>
      if Sound(yes, known, a, false) { SoundGrows(yes, known, a); }
      if Sound(no, known, a, false) { SoundGrows(no, known, a); }
    case Do(i, k) =>
      if Sound(k, known, a, false) { SoundGrows(k, known, a); }
      if Sound(k, false, a, false) { SoundGrows(k, false, a); }
      if Sound(k, true, a, false) { SoundGrows(k, true, a); }
  }

  lemma {:induction false} GivesAdds(p: Prog, isNew: bool, a: AgentId, part: Part)
    requires Gives(p, isNew, a, part)
    ensures MayAdd(p, a)
    decreases p
  {
    match p
    case If(_, yes, _) => GivesAdds(yes, isNew, a, part);
    case Do(i, k) => if !GivesNow(i, isNew, a, part) { GivesAdds(k, isNew, a, part); }
  }

  lemma {:induction false} TakesDrops(p: Prog, a: AgentId, part: Part)
    requires Takes(p, a, part)
    ensures MayDrop(p, a)
    decreases p
  {
    match p
    case If(_, yes, _) => TakesDrops(yes, a, part);
    case Do(i, k) => if !TakesNow(i, a, part) { TakesDrops(k, a, part); }
  }

  lemma {:induction false} UntouchedDrops(p: Prog, a: AgentId)
    requires Untouched(p, a)
    ensures MayDrop(p, a)
    decreases p
  {
    match p
    case If(_, yes, no) => if Untouched(yes, a) { UntouchedDrops(yes, a); } else { UntouchedDrops(no, a); }
    case Do(i, k) => if Untouched(k, a) { UntouchedDrops(k, a); }
  }

  // ---- one step of one thread -----------------------------------------------------------

  /** From program `p` to `p'`, as far as agent `a` is concerned. */
  ghost predicate Hop(p: Prog, known: bool, b: Bits, p': Prog, known': bool, b': Bits, a: AgentId) {
    match p
    case Done => false
    case If(test, yes, no) =>
      && b' == b && known' == known
      && ((p' == yes && (test.Found? || test.FoundMailbox? ==> known)) || (p' == no && (test.Found? ==> !known)))
    case Do(i, k) =>
      && b' == InstrBits(i, !known, b, a)
      && if i.Access? && i.op.RegistryLookup? then p' == k && (known' && i.op.a == a ==> b.reg)
         else
           && known' == known
           && match i
              case Enqueue(c) => p' == Do(Append(c), k)
              case PollBox(c) =>
                || p' == Do(Respond(200), Do(Release(MailboxCond), Done))
                || p' == Do(Asleep, Do(Acquire(MailboxCond), p))
                || exists copied :: p' == Do(Clear(c, copied), k)
              case ForEachEndpoint => p' == k || exists ep :: p' == SweepOne(ep, p)
              case ForEachAgent => p' == k || exists c :: p' == Section(RegistryLookup(c), p)
              case _ => p' == k
  }

  ghost predicate StageOk(p: Prog, b: Bits, a: AgentId) {
    if Untouched(p, a) then Agreed(b)
    else
      && !b.reg && !b.flag
      && (b.caps ==> Takes(p, a, Caps))
      && (b.beat || b.ttl ==> Takes(p, a, Beat))
      && (b.box ==> Takes(p, a, Box))
  }

  /** What one step of a sound program means for the dictionaries and for what is still to come. */
  ghost predicate Onward(p: Prog, known: bool, b: Bits, p': Prog, known': bool, b': Bits, a: AgentId) {
    && Sound(p', known', a, b'.reg)
    && (MayAdd(p', a) ==> MayAdd(p, a))
    && (MayDrop(p', a) && !MayDrop(p, a) ==> b' == b && Untouched(p', a) && !MayAdd(p', a))
    && (Idle(p, a) ==> b' == b)
    && (MayDrop(p, a) && StageOk(p, b, a) ==> if MayDrop(p', a) then StageOk(p', b', a) else Agreed(b'))
  }

  /** What one step of a sound program that removes nothing adds, and what it still promises. */
  ghost predicate Grows(p: Prog, known: bool, b: Bits, p': Prog, known': bool, b': Bits, a: AgentId) {
    && (b.reg ==> b'.reg)
    && (!b.reg && !b'.reg ==> b' == b)
    && (b'.reg && !b.reg ==> Gives(p', !known', a, Caps) && Gives(p', !known', a, Beat) && Gives(p', !known', a, Ttl))
    && (b'.flag && !b.flag ==> b'.box || Gives(p', !known', a, Box))
    && (forall part :: Present(b, part) ==> Present(b', part))
    && (forall part :: Gives(p, !known, a, part) ==> Present(b', part) || Gives(p', !known', a, part))
  }

  lemma BranchOnward(p: Prog, known: bool, b: Bits, p': Prog, known': bool, b': Bits, a: AgentId)
    requires p.If?
    requires Hop(p, known, b, p', known', b', a) && Sound(p, known, a, b.reg) && !(MayAdd(p, a) && MayDrop(p, a))
    ensures Onward(p, known, b, p', known', b', a)
  {
    if MayDrop(p, a) && StageOk(p, b, a) && Untouched(p, a) && !MayDrop(p', a) { assert Agreed(b'); }
    if Untouched(p', a) { UntouchedDrops(p', a); }
  }

  /** Removal begins. */
  lemma UnregisterOnward(p: Prog, known: bool, b: Bits, p': Prog, known': bool, b': Bits, a: AgentId)
    requires p.Do? && p.instr == Access(RegistryDrop(a))
    requires Hop(p, known, b, p', known', b', a) && Sound(p, known, a, b.reg) && !(MayAdd(p, a) && MayDrop(p, a))
    ensures Onward(p, known, b, p', known', b', a)
  {
    var k := p.next;
    assert p' == k && known' == known && b' == b.(reg := false, flag := false);
    TakesDrops(k, a, Caps);
    assert MayDrop(k, a) && MayDrop(p, a) && Untouched(p, a);
  }

  /** Dropping an entry moves the stage on. */
  lemma DropStage(i: Instr, k: Prog, b: Bits, isNew: bool, a: AgentId)
    requires Drops(i, a) && i != Access(RegistryDrop(a)) && !Untouched(k, a) && StageOk(Do(i, k), b, a)
    ensures var b' := InstrBits(i, isNew, b, a); if MayDrop(k, a) then StageOk(k, b', a) else Agreed(b')
  {
    if Takes(k, a, Caps) { TakesDrops(k, a, Caps); }
    if Takes(k, a, Beat) { TakesDrops(k, a, Beat); }
    if Takes(k, a, Box) { TakesDrops(k, a, Box); }
  }

  /** Removal goes on. */
  lemma DropOnward(p: Prog, known: bool, b: Bits, p': Prog, known': bool, b': Bits, a: AgentId)
    requires p.Do? && Drops(p.instr, a) && p.instr != Access(RegistryDrop(a))
    requires Hop(p, known, b, p', known', b', a) && Sound(p, known, a, b.reg) && !(MayAdd(p, a) && MayDrop(p, a))
    ensures Onward(p, known, b, p', known', b', a)
  {
    assert p' == p.next && known' == known && b'.reg == b.reg && !Untouched(p', a);
    if StageOk(p, b, a) { DropStage(p.instr, p.next, b, !known, a); }
  }

  lemma AddOnward(p: Prog, known: bool, b: Bits, p': Prog, known': bool, b': Bits, a: AgentId)
    requires p.Do? && Adds(p.instr, a)
    requires Hop(p, known, b, p', known', b', a) && Sound(p, known, a, b.reg) && !(MayAdd(p, a) && MayDrop(p, a))
    ensures Onward(p, known, b, p', known', b', a)
  {
  }

  lemma SweepOneSound(ep: Endpoint, k: Prog, known: bool, a: AgentId, reg: bool)
    requires Idle(k, a)
    ensures !MayAdd(SweepOne(ep, k), a) && Sound(SweepOne(ep, k), known, a, reg)
    ensures if ep.agentId == a then Untouched(SweepOne(ep, k), a) else !MayDrop(SweepOne(ep, k), a)
  {
    IdleSound(k, known, a, reg);
    IdleSound(k, known, a, false);
    RemoveAllSound(ep.agentId, k, known, a, reg);
    var fork := If(IsExpired, RemoveAll(ep.agentId, k), k);
    assert Sound(fork, known, a, reg) && !MayAdd(fork, a);
    assert MayDrop(fork, a) == MayDrop(RemoveAll(ep.agentId, k), a)
           && Untouched(fork, a) == Untouched(RemoveAll(ep.agentId, k), a);
    SectionSound(HeartbeatRead(ep), fork, known, a, reg);
  }

  /** A section whose access changes nothing of `a`, and looks nothing up. */
  lemma SectionSound(op: Op, k: Prog, known: bool, a: AgentId, reg: bool)
    requires !Adds(Access(op), a) && !Drops(Access(op), a) && !op.RegistryLookup?
    ensures Sound(Section(op, k), known, a, reg) == Sound(k, known, a, reg)
    ensures MayAdd(Section(op, k), a) == MayAdd(k, a) && MayDrop(Section(op, k), a) == MayDrop(k, a)
    ensures Untouched(Section(op, k), a) == Untouched(k, a)
    ensures forall part, isNew :: Gives(Section(op, k), isNew, a, part) == Gives(k, isNew, a, part)
    ensures forall part :: Takes(Section(op, k), a, part) == Takes(k, a, part)
  {
    var q := Do(Release(LockOf(op)), k);
    var r := Do(Access(op), q);
    assert Sound(r, known, a, reg) == Sound(q, known, a, reg) == Sound(k, known, a, reg);
    assert MayAdd(r, a) == MayAdd(q, a) && MayDrop(r, a) == MayDrop(q, a) && Untouched(r, a) == Untouched(q, a);
    forall part, isNew ensures Gives(Section(op, k), isNew, a, part) == Gives(k, isNew, a, part) {
      assert Gives(r, isNew, a, part) == Gives(q, isNew, a, part) == Gives(k, isNew, a, part);
    }
    forall part ensures Takes(Section(op, k), a, part) == Takes(k, a, part) {
      assert Takes(r, a, part) == Takes(q, a, part) == Takes(k, a, part);
    }
  }

  lemma RemoveAllSound(c: AgentId, k: Prog, known: bool, a: AgentId, reg: bool)
    requires Idle(k, a)
    ensures !MayAdd(RemoveAll(c, k), a) && Sound(RemoveAll(c, k), known, a, reg)
    ensures if c == a then Untouched(RemoveAll(c, k), a) else !MayDrop(RemoveAll(c, k), a)
  {
    if c == a { OwnRemovalSound(a, k, known, reg); } else { OtherRemovalSound(c, k, known, a, reg); }
  }

  lemma OtherRemovalSound(c: AgentId, k: Prog, known: bool, a: AgentId, reg: bool)
    requires Idle(k, a) && c != a
    ensures Idle(RemoveAll(c, k), a) && Sound(RemoveAll(c, k), known, a, reg)
  {
    var p4 := Section(MailboxDrop(c), k);
    var p3 := Section(HeartbeatDrop(c), p4);
    SectionIdle(MailboxDrop(c), k, a);
    SectionIdle(HeartbeatDrop(c), p4, a);
    SectionIdle(CapabilitiesDrop(c), p3, a);
    SectionIdle(RegistryDrop(c), Section(CapabilitiesDrop(c), p3), a);
    IdleSound(RemoveAll(c, k), known, a, reg);
  }

  lemma OwnRemovalSound(a: AgentId, k: Prog, known: bool, reg: bool)
    requires Idle(k, a)
    ensures !MayAdd(RemoveAll(a, k), a) && Sound(RemoveAll(a, k), known, a, reg) && Untouched(RemoveAll(a, k), a)
  {
    IdleSound(k, known, a, false);
    var p4 := Section(MailboxDrop(a), k);
    var p3 := Section(HeartbeatDrop(a), p4);
    var p2 := Section(CapabilitiesDrop(a), p3);
    DropSection(MailboxDrop(a), k, known, a, false);
    DropSection(HeartbeatDrop(a), p4, known, a, false);
    DropSection(CapabilitiesDrop(a), p3, known, a, false);
    assert Takes(p2, a, Caps) && Takes(p2, a, Beat) && Takes(p2, a, Box);
    UnregisterSection(a, p2, known, reg);
  }

  lemma UnregisterSection(a: AgentId, k: Prog, known: bool, reg: bool)
    requires Takes(k, a, Caps) && Takes(k, a, Beat) && Takes(k, a, Box) && !Untouched(k, a) && !MayAdd(k, a)
    requires Sound(k, known, a, false)
    ensures var p := Section(RegistryDrop(a), k); !MayAdd(p, a) && Sound(p, known, a, reg) && Untouched(p, a)
  {
    var q := Do(Release(RegistryLock), k);
    ReleaseQuiet(RegistryLock, k, known, a);
    var r := Do(Access(RegistryDrop(a)), q);
    assert Sound(r, known, a, reg) && Untouched(r, a) && !MayAdd(r, a);
  }

  lemma ReleaseQuiet(l: Lock, k: Prog, known: bool, a: AgentId)
    ensures var q := Do(Release(l), k);
            && (Sound(k, known, a, false) ==> Sound(q, known, a, false))
            && Untouched(q, a) == Untouched(k, a) && MayAdd(q, a) == MayAdd(k, a)
            && forall part :: Takes(q, a, part) == Takes(k, a, part)
  {
  }

  /** A section that drops `a` from another dictionary than the registry. */
  lemma DropSection(op: Op, k: Prog, known: bool, a: AgentId, reg: bool)
    requires Drops(Access(op), a) && !op.RegistryDrop? && Sound(k, known, a, reg) && !Untouched(k, a) && !MayAdd(k, a)
    ensures Sound(Section(op, k), known, a, reg) && !Untouched(Section(op, k), a) && !MayAdd(Section(op, k), a)
    ensures forall part :: Takes(Section(op, k), a, part) == (TakesNow(Access(op), a, part) || Takes(k, a, part))
  {
    var q := Do(Release(LockOf(op)), k);
    var r := Do(Access(op), q);
    assert Sound(q, known, a, reg) && !Untouched(q, a) && !MayAdd(q, a);
    assert Sound(r, known, a, reg) && !Untouched(r, a) && !MayAdd(r, a);
    forall part ensures Takes(Section(op, k), a, part) == (TakesNow(Access(op), a, part) || Takes(k, a, part)) {
      assert Takes(q, a, part) == Takes(k, a, part);
      assert Takes(r, a, part) == (TakesNow(Access(op), a, part) || Takes(q, a, part));
    }
  }

  lemma LoopOnward(p: Prog, known: bool, b: Bits, p': Prog, known': bool, b': Bits, a: AgentId)
    requires p.Do? && (p.instr.PollBox? || p.instr.ForEachEndpoint? || p.instr.ForEachAgent?)
    requires Hop(p, known, b, p', known', b', a) && Sound(p, known, a, b.reg) && !(MayAdd(p, a) && MayDrop(p, a))
    ensures Onward(p, known, b, p', known', b', a)
  {
    assert Idle(p, a);
    IdleSound(p, known', a, b'.reg);
    if p.instr.ForEachEndpoint? && p' != p.next {
      var ep :| p' == SweepOne(ep, p);
      SweepOneSound(ep, p, known', a, b'.reg);
      if MayDrop(p', a) { assert ep.agentId == a; } else { IdleSound(p', known', a, b'.reg); }
    } else if p.instr.ForEachAgent? && p' != p.next {
      var c :| p' == Section(RegistryLookup(c), p);
      LookupIdle(c, p, a);
      IdleSound(p', known', a, b'.reg);
    } else if p.instr.PollBox? {
      PollShapesIdle(p, p', a);
      IdleSound(p', known', a, b'.reg);
    } else {
      IdleSound(p', known', a, b'.reg);
    }
  }

  lemma LookupIdle(c: AgentId, k: Prog, a: AgentId)
    requires Idle(k, a)
    ensures Idle(Section(RegistryLookup(c), k), a)
  {
    assert Idle(Do(Release(RegistryLock), k), a);
    assert Idle(Do(Access(RegistryLookup(c)), Do(Release(RegistryLock), k)), a);
  }

  lemma PollShapesIdle(p: Prog, p': Prog, a: AgentId)
    requires p.Do? && p.instr.PollBox? && Idle(p, a)
    requires || p' == Do(Respond(200), Do(Release(MailboxCond), Done))
             || p' == Do(Asleep, Do(Acquire(MailboxCond), p))
             || exists copied :: p' == Do(Clear(p.instr.a, copied), p.next)
    ensures Idle(p', a)
  {
    assert Idle(Done, a) && Idle(Do(Release(MailboxCond), Done), a) && Idle(Do(Acquire(MailboxCond), p), a);
  }

  /** What moves on unchanged keeps its stage. */
  lemma SameStage(p: Prog, p': Prog, b: Bits, a: AgentId)
    requires MayDrop(p', a) == MayDrop(p, a) && Untouched(p', a) == Untouched(p, a) && StageOk(p, b, a)
    requires forall part :: Takes(p, a, part) ==> Takes(p', a, part)
    ensures MayDrop(p, a) ==> StageOk(p', b, a)
  {
  }

  lemma LookupOnward(p: Prog, known: bool, b: Bits, p': Prog, known': bool, b': Bits, a: AgentId)
    requires p.Do? && p.instr.Access? && p.instr.op.RegistryLookup?
    requires Hop(p, known, b, p', known', b', a) && Sound(p, known, a, b.reg) && !(MayAdd(p, a) && MayDrop(p, a))
    ensures Onward(p, known, b, p', known', b', a)
  {
    var k := p.next;
    assert b' == b && p' == k && MayDrop(k, a) == MayDrop(p, a) && MayAdd(k, a) == MayAdd(p, a);
    assert Untouched(k, a) == Untouched(p, a);
    if known' {
      assert Sound(k, true, a, b.reg || p.instr.op.a == a);
    }
  }

  lemma QuietSound(i: Instr, k: Prog, known: bool, a: AgentId, reg: bool)
    requires !Adds(i, a) && !Drops(i, a) && !Unsettles(i)
    ensures Sound(Do(i, k), known, a, reg) == Sound(k, known, a, reg)
  {
  }

  lemma QuietHop(p: Prog, known: bool, b: Bits, p': Prog, known': bool, b': Bits, a: AgentId)
    requires p.Do? && !Adds(p.instr, a) && !Drops(p.instr, a) && !Unsettles(p.instr)
    requires Hop(p, known, b, p', known', b', a)
    ensures b' == b && known' == known && (p' == p.next || exists c :: p' == Do(Append(c), p.next))
  {
  }

  lemma QuietOnward(p: Prog, known: bool, b: Bits, p': Prog, known': bool, b': Bits, a: AgentId)
    requires p.Do? && !Adds(p.instr, a) && !Drops(p.instr, a) && !Unsettles(p.instr)
    requires Hop(p, known, b, p', known', b', a) && Sound(p, known, a, b.reg) && !(MayAdd(p, a) && MayDrop(p, a))
    ensures Onward(p, known, b, p', known', b', a)
  {
    QuietHop(p, known, b, p', known', b', a);
    QuietNext(p, p', a);
    QuietSound(p.instr, p.next, known, a, b.reg);
    if p' != p.next {
      var c :| p' == Do(Append(c), p.next);
      QuietSound(Append(c), p.next, known, a, b.reg);
    }
    if MayDrop(p, a) && StageOk(p, b, a) { SameStage(p, p', b, a); }
  }

  lemma QuietNext(p: Prog, p': Prog, a: AgentId)
    requires p.Do? && !Adds(p.instr, a) && !Drops(p.instr, a)
    requires p' == p.next || exists c :: p' == Do(Append(c), p.next)
    ensures MayAdd(p', a) == MayAdd(p, a) && MayDrop(p', a) == MayDrop(p, a) && Untouched(p', a) == Untouched(p, a)
    ensures forall part :: Takes(p, a, part) ==> Takes(p', a, part)
  {
  }

  lemma HopOnward(p: Prog, known: bool, b: Bits, p': Prog, known': bool, b': Bits, a: AgentId)
    requires Hop(p, known, b, p', known', b', a) && Sound(p, known, a, b.reg) && !(MayAdd(p, a) && MayDrop(p, a))
    ensures Onward(p, known, b, p', known', b', a)
  {
    if p.If? {
      BranchOnward(p, known, b, p', known', b', a);
    } else if Adds(p.instr, a) {
      AddOnward(p, known, b, p', known', b', a);
    } else if p.instr == Access(RegistryDrop(a)) {
      UnregisterOnward(p, known, b, p', known', b', a);
    } else if Drops(p.instr, a) {
      DropOnward(p, known, b, p', known', b', a);
    } else if p.instr.PollBox? || p.instr.ForEachEndpoint? || p.instr.ForEachAgent? {
      LoopOnward(p, known, b, p', known', b', a);
    } else if p.instr.Access? && p.instr.op.RegistryLookup? {
      LookupOnward(p, known, b, p', known', b', a);
    } else {
      QuietOnward(p, known, b, p', known', b', a);
    }
  }

  predicate Registers(i: Instr, a: AgentId) {
    i.Access? && i.op.RegistryPut? && i.op.ep.agentId == a
  }

  lemma PutGrows(p: Prog, known: bool, b: Bits, p': Prog, known': bool, b': Bits, a: AgentId)
    requires p.Do? && Registers(p.instr, a)
    requires Hop(p, known, b, p', known', b', a) && Sound(p, known, a, b.reg) && !MayDrop(p, a)
    ensures Grows(p, known, b, p', known', b', a)
  {
    assert p' == p.next && known' == known && b' == b.(reg := true, flag := p.instr.op.ep.mailbox);
  }

  /** The other additions switch on one or two bits. */
  lemma AdditionBits(i: Instr, isNew: bool, b: Bits, a: AgentId)
    requires Adds(i, a) && !Registers(i, a)
    ensures InstrBits(i, isNew, b, a)
         == if i.Access? && (i.op.CapabilitiesPut? || i.op.CapabilitiesDefault?) then b.(caps := true)
            else if i.Access? && i.op.HeartbeatStamp? then b.(beat := true, ttl := b.ttl || i.op.given.Some? || isNew)
            else if i.Access? && i.op.HeartbeatDefault? then b.(beat := true, ttl := true)
            else b.(box := true)
  {
  }

  lemma GivenIsPresent(i: Instr, isNew: bool, b: Bits, a: AgentId, part: Part)
    requires Adds(i, a) && !Registers(i, a)
    ensures var b' := InstrBits(i, isNew, b, a);
            && b'.reg == b.reg && b'.flag == b.flag
            && (Present(b, part) || GivesNow(i, isNew, a, part) ==> Present(b', part))
  {
    AdditionBits(i, isNew, b, a);
  }

  lemma AddGrows(p: Prog, known: bool, b: Bits, p': Prog, known': bool, b': Bits, a: AgentId)
    requires p.Do? && Adds(p.instr, a) && !Registers(p.instr, a)
    requires Hop(p, known, b, p', known', b', a) && Sound(p, known, a, b.reg) && !MayDrop(p, a)
    ensures Grows(p, known, b, p', known', b', a)
  {
    var isNew := !known;
    assert b' == InstrBits(p.instr, isNew, b, a) && known' == known;
    forall part ensures (Present(b, part) ==> Present(b', part))
                        && (Gives(p, isNew, a, part) ==> Present(b', part) || Gives(p', isNew, a, part)) {
      GivenIsPresent(p.instr, isNew, b, a, part);
      AfterAddition(p, isNew, p', a, part);
    }
    GivenIsPresent(p.instr, isNew, b, a, Caps);
  }

  lemma AfterAddition(p: Prog, isNew: bool, p': Prog, a: AgentId, part: Part)
    requires p.Do? && (p' == p.next || exists c :: p' == Do(Append(c), p.next))
    ensures Gives(p, isNew, a, part) && !GivesNow(p.instr, isNew, a, part) ==> Gives(p', isNew, a, part)
  {
  }

  lemma QuietGrows(p: Prog, known: bool, b: Bits, p': Prog, known': bool, b': Bits, a: AgentId)
    requires p.Do? ==> !Adds(p.instr, a)
    requires Hop(p, known, b, p', known', b', a) && Sound(p, known, a, b.reg) && !MayDrop(p, a)
    ensures Grows(p, known, b, p', known', b', a)
  {
    assert b' == b;
  }

  lemma HopGrows(p: Prog, known: bool, b: Bits, p': Prog, known': bool, b': Bits, a: AgentId)
    requires Hop(p, known, b, p', known', b', a) && Sound(p, known, a, b.reg) && !MayDrop(p, a)
    ensures Grows(p, known, b, p', known', b', a)
  {
    if p.Do? && Registers(p.instr, a) {
      PutGrows(p, known, b, p', known', b', a);
    } else if p.Do? && Adds(p.instr, a) {
      AddGrows(p, known, b, p', known', b', a);
    } else {
      QuietGrows(p, known, b, p', known', b', a);
    }
  }

  // ---- the handlers are sound ------------------------------------------------------------

  lemma SectionIdle(op: Op, k: Prog, a: AgentId)
    requires Idle(k, a) && !Adds(Access(op), a) && !Drops(Access(op), a)
    ensures Idle(Section(op, k), a)
  {
    var q := Do(Release(LockOf(op)), k);
    DoIdle(Release(LockOf(op)), k, a);
    DoIdle(Access(op), q, a);
    DoIdle(Acquire(LockOf(op)), Do(Access(op), q), a);
  }

  lemma DoIdle(i: Instr, k: Prog, a: AgentId)
    requires Idle(k, a) && !Adds(i, a) && !Drops(i, a)
    ensures Idle(Do(i, k), a)
  {
  }

  lemma AnswerIdle(status: int, a: AgentId)
    ensures Idle(Answer(status), a)
  {
    DoIdle(Respond(status), Done, a);
    SectionIdle(AuditWrite, Do(Respond(status), Done), a);
  }

  /** A section that adds `a`, once registered, to another dictionary than the registry. */
  lemma AddSection(op: Op, k: Prog, known: bool, a: AgentId)
    requires Adds(Access(op), a) && !op.RegistryPut? && Sound(k, known, a, true) && !MayDrop(k, a)
    ensures Sound(Section(op, k), known, a, true) && !MayDrop(Section(op, k), a)
    ensures forall part, isNew :: Gives(Section(op, k), isNew, a, part)
                                  == (GivesNow(Access(op), isNew, a, part) || Gives(k, isNew, a, part))
  {
    var q := Do(Release(LockOf(op)), k);
    var r := Do(Access(op), q);
    assert Sound(q, known, a, true) && !MayDrop(q, a);
    assert Sound(r, known, a, true) && !MayDrop(r, a);
    forall part, isNew
      ensures Gives(Section(op, k), isNew, a, part)
           == (GivesNow(Access(op), isNew, a, part) || Gives(k, isNew, a, part))
    {
      assert Gives(q, isNew, a, part) == Gives(k, isNew, a, part);
      assert Gives(r, isNew, a, part) == (GivesNow(Access(op), isNew, a, part) || Gives(q, isNew, a, part));
    }
  }

  /** A registration of `a` that is followed up. */
  lemma PutSection(ep: Endpoint, k: Prog, known: bool, a: AgentId, reg: bool)
    requires ep.agentId == a && Sound(k, known, a, true) && !MayDrop(k, a)
    requires Gives(k, !known, a, Caps) && Gives(k, !known, a, Beat) && (Gives(k, !known, a, Ttl) || reg)
    requires ep.mailbox ==> Gives(k, !known, a, Box)
    ensures Sound(Section(RegistryPut(ep), k), known, a, reg) && !MayDrop(Section(RegistryPut(ep), k), a)
  {
    var q := Do(Release(RegistryLock), k);
    assert Sound(q, known, a, true) && !MayDrop(q, a);
    var isNew := !known;
    assert forall part :: Gives(q, isNew, a, part) == Gives(k, isNew, a, part);
    var r := Do(Access(RegistryPut(ep)), q);
    assert Sound(r, known, a, reg) && !MayDrop(r, a);
  }

  lemma LookupSection(c: AgentId, k: Prog, known: bool, a: AgentId, reg: bool)
    requires Sound(k, false, a, reg) && Sound(k, true, a, reg || c == a)
    ensures Sound(Section(RegistryLookup(c), k), known, a, reg)
    ensures MayAdd(Section(RegistryLookup(c), k), a) == MayAdd(k, a)
            && MayDrop(Section(RegistryLookup(c), k), a) == MayDrop(k, a)
  {
    var q := Do(Release(RegistryLock), k);
    assert Sound(q, false, a, reg) && Sound(q, true, a, reg || c == a) && MayAdd(q, a) == MayAdd(k, a)
           && MayDrop(q, a) == MayDrop(k, a);
    var r := Do(Access(RegistryLookup(c)), q);
    assert Sound(r, known, a, reg) && MayAdd(r, a) == MayAdd(k, a) && MayDrop(r, a) == MayDrop(k, a);
  }

  /** A program fit to be started, for agent `a`. */
  ghost predicate Startable(p: Prog, a: AgentId) {
    && Sound(p, false, a, false)
    && !(MayAdd(p, a) && MayDrop(p, a))
    && (MayDrop(p, a) ==> Untouched(p, a))
  }

  lemma IdleStartable(p: Prog, a: AgentId)
    requires Idle(p, a)
    ensures Startable(p, a)
  {
    IdleSound(p, false, a, false);
  }

  lemma RegisterRestSound(ep: Endpoint, caps: Object, given: Option<int>, known: bool, a: AgentId)
    ensures var p := RegisterRest(ep, caps, given);
            if ep.agentId == a then
              && Sound(p, known, a, true) && !MayDrop(p, a) && Gives(p, !known, a, Caps) && Gives(p, !known, a, Beat)
              && (!known ==> Gives(p, true, a, Ttl))
            else Idle(p, a)
  {
    var c := ep.agentId;
    AnswerIdle(200, a);
    AnswerIdle(201, a);
    var fork := If(Found, Answer(200), Answer(201));
    assert Idle(fork, a);
    IdleSound(fork, known, a, true);
    if c == a {
      AddSection(HeartbeatStamp(c, given), fork, known, a);
      AddSection(CapabilitiesPut(c, caps), Section(HeartbeatStamp(c, given), fork), known, a);
    } else {
      SectionIdle(HeartbeatStamp(c, given), fork, a);
      SectionIdle(CapabilitiesPut(c, caps), Section(HeartbeatStamp(c, given), fork), a);
    }
  }

  lemma RegisterPutSound(ep: Endpoint, caps: Object, given: Option<int>, known: bool, a: AgentId, reg: bool)
    requires known ==> reg
    ensures var rest := RegisterRest(ep, caps, given);
            var p := Section(RegistryPut(ep), if ep.mailbox then Section(MailboxDefault(ep.agentId), rest) else rest);
            if ep.agentId == a then Sound(p, known, a, reg) && !MayDrop(p, a) else Idle(p, a)
  {
    var rest := RegisterRest(ep, caps, given);
    RegisterRestSound(ep, caps, given, known, a);
    if ep.agentId == a {
      AddSection(MailboxDefault(a), rest, known, a);
      PutSection(ep, if ep.mailbox then Section(MailboxDefault(a), rest) else rest, known, a, reg);
    } else {
      SectionIdle(MailboxDefault(ep.agentId), rest, a);
      SectionIdle(RegistryPut(ep), if ep.mailbox then Section(MailboxDefault(ep.agentId), rest) else rest, a);
    }
  }

  lemma RegisterStartable(ep: Endpoint, caps: Object, given: Option<int>, a: AgentId)
    ensures Startable(Register(ep, caps, given), a)
  {
    var rest := RegisterRest(ep, caps, given);
    var p := Section(RegistryPut(ep), if ep.mailbox then Section(MailboxDefault(ep.agentId), rest) else rest);
    RegisterPutSound(ep, caps, given, false, a, false);
    RegisterPutSound(ep, caps, given, true, a, true);
    if ep.agentId == a {
      LookupSection(a, p, false, a, false);
    } else {
      SectionIdle(RegistryLookup(ep.agentId), p, a);
      IdleStartable(Register(ep, caps, given), a);
    }
  }

  lemma SendIdleParts(b: AgentId, a: AgentId)
    ensures Idle(Refuse(), a) && Idle(Route(b), a) && Idle(Section(TrafficAppend, Answer(202)), a)
  {
    AnswerIdle(200, a);
    AnswerIdle(202, a);
    AnswerIdle(204, a);
    AnswerIdle(404, a);
    AnswerIdle(502, a);
    SectionIdle(TrafficAppend, Answer(404), a);
    SectionIdle(TrafficAppend, Answer(202), a);
    SectionIdle(TrafficAppend, Answer(502), a);
    var success := If(Oracle, Answer(200), Answer(204));
    assert Idle(success, a);
    SectionIdle(TrafficAppend, success, a);
    var fork := If(Oracle, Section(TrafficAppend, success), Section(TrafficAppend, Answer(502)));
    assert Idle(fork, a) && Idle(If(Found, fork, Refuse()), a);
    SectionIdle(RegistryLookup(b), If(Found, fork, Refuse()), a);
  }

  lemma QueueForSound(b: AgentId, a: AgentId)
    ensures Sound(QueueFor(b), true, a, true) && !MayDrop(QueueFor(b), a) && (a != b ==> Idle(QueueFor(b), a))
  {
    SendIdleParts(b, a);
    var k := Do(Release(MailboxCond), Section(TrafficAppend, Answer(202)));
    assert Idle(k, a);
    IdleSound(k, true, a, true);
    var q := Do(Enqueue(b), k);
    assert Sound(q, true, a, true) && !MayDrop(q, a) && (a != b ==> Idle(q, a));
  }

  lemma SendStartable(b: AgentId, a: AgentId)
    ensures Startable(Send(b), a)
  {
    SendIdleParts(b, a);
    QueueForSound(b, a);
    var choose := If(FoundMailbox, QueueFor(b), Route(b));
    var fork := If(Found, choose, Refuse());
    IdleSound(Refuse(), false, a, false);
    IdleSound(Route(b), true, a, true);
    assert Sound(choose, true, a, true) && !MayDrop(choose, a) && (a != b ==> Idle(choose, a));
    assert Sound(fork, true, a, true) && Sound(fork, false, a, false) && !MayDrop(fork, a)
           && (a != b ==> Idle(fork, a));
    if a == b {
      LookupSection(b, fork, false, a, false);
    } else {
      SectionIdle(RegistryLookup(b), fork, a);
      IdleStartable(Send(b), a);
    }
  }

  lemma RefreshIdle(c: AgentId, a: AgentId)
    ensures Idle(Refresh(c), a)
  {
    AnswerIdle(200, a);
    var k := Do(Release(MailboxCond), Answer(200));
    assert Idle(k, a) && Idle(Do(PollBox(c), k), a) && Idle(Listen(c), a);
    SectionIdle(HeartbeatTouch(c), Listen(c), a);
  }

  lemma HealSound(c: AgentId, a: AgentId)
    ensures if c == a then Sound(Heal(c), false, a, false) && !MayDrop(Heal(c), a) else Idle(Heal(c), a)
  {
    RefreshIdle(c, a);
    var p4 := Section(AuditWrite, Refresh(c));
    SectionIdle(AuditWrite, Refresh(c), a);
    var p3 := Section(HeartbeatDefault(c), p4);
    if c == a {
      IdleSound(p4, false, a, true);
      AddSection(HeartbeatDefault(c), p4, false, a);
      AddSection(CapabilitiesDefault(c), p3, false, a);
      AddSection(MailboxDefault(c), HealRest(c), false, a);
      PutSection(MailboxEndpoint(c), Section(MailboxDefault(c), HealRest(c)), false, a, false);
    } else {
      SectionIdle(HeartbeatDefault(c), p4, a);
      SectionIdle(CapabilitiesDefault(c), p3, a);
      SectionIdle(MailboxDefault(c), HealRest(c), a);
      SectionIdle(RegistryPut(MailboxEndpoint(c)), Section(MailboxDefault(c), HealRest(c)), a);
    }
  }

  lemma PollStartable(c: AgentId, a: AgentId)
    ensures Startable(Poll(c), a)
  {
    RefreshIdle(c, a);
    HealSound(c, a);
    IdleSound(Refresh(c), false, a, false);
    if c != a { IdleSound(Heal(c), false, a, false); }
    var fork := If(HasMailbox, Refresh(c), Heal(c));
    assert Sound(fork, false, a, false) && !MayDrop(fork, a);
  }

  lemma AgentsIdle(a: AgentId)
    ensures Idle(Agents(), a)
  {
    assert Idle(Do(Respond(200), Done), a);
    var finish := Do(Release(CapabilitiesLock), Do(Respond(200), Done));
    assert Idle(finish, a) && Idle(Do(ForEachAgent, finish), a);
    var body := Do(Access(CapabilitiesKeys), Do(ForEachAgent, finish));
    assert Idle(body, a) && Idle(Do(Acquire(CapabilitiesLock), body), a);
    SectionIdle(HeartbeatSnapshot, Do(Acquire(CapabilitiesLock), body), a);
  }

  lemma AdmitStartable(limited: bool, who: string, k: Prog, a: AgentId)
    requires Startable(k, a)
    ensures Startable(Admit(limited, who, k), a)
  {
    if limited {
      var refuse := Do(Respond(429), Done);
      assert Idle(refuse, a);
      IdleSound(refuse, false, a, false);
      var fork := If(Oracle, refuse, k);
      assert Startable(fork, a);
      SectionSound(BucketConsume(who), fork, false, a, false);
      SectionSound(BucketFind, Section(BucketConsume(who), fork), false, a, false);
    }
  }

  lemma HandlerStartable(limited: bool, who: string, job: Job, a: AgentId)
    ensures Startable(Handler(limited, who, job), a)
  {
    match job
    case RegisterJob(ep, caps, given) =>
      RegisterStartable(ep, caps, given, a);
      AdmitStartable(limited, who, Register(ep, caps, given), a);
    case DeregisterJob(b) =>
      AnswerIdle(204, a);
      RemoveAllSound(b, Answer(204), false, a, false);
      AdmitStartable(limited, who, RemoveAll(b, Answer(204)), a);
    case SendJob(b) =>
      SendStartable(b, a);
      AdmitStartable(limited, who, Send(b), a);
    case PollJob(b) =>
      PollStartable(b, a);
      AdmitStartable(limited, who, Poll(b), a);
    case AgentsJob =>
      AgentsIdle(a);
      IdleStartable(Agents(), a);
      AdmitStartable(limited, who, Agents(), a);
    case TrafficJob =>
      AnswerIdle(200, a);
      SectionIdle(TrafficRead, Answer(200), a);
      IdleStartable(Section(TrafficRead, Answer(200)), a);
      AdmitStartable(limited, who, Section(TrafficRead, Answer(200)), a);
    case SweepJob =>
      assert Idle(Do(ForEachEndpoint, Done), a);
      SectionIdle(RegistryList, Do(ForEachEndpoint, Done), a);
      IdleStartable(Sweep(), a);
  }
}
