/**
 A notification that no port sent: a concrete run in which rewriting the registers of a queued sender
 makes its message look like one of the kernel.
 */
module MislabelledMessages {
  import opened KernelState
  import opened KernelPrimitives
  import opened ProcessManager
  import opened IpcPort
  import opened ProcessControl
  import opened KernelRun
  import opened MessageSources
  import B = BitDelivery
  import K = BreakingRuns

  /** Init's registers when it asks to write three registers, the third of them `{14}`. */
  function Rewrite(): Registers {
    ZeroRegisters()[MR_REGISTER_COUNT := {0, 1}][REGISTER_START + MR_MESSAGE_INFO := {14}]
  }

  const WRITE: Entry := CapabilityCall(0, ReqWriteRegisters(K.PEER))
  const TAKE: Entry := CapabilityCall(0, ReqReceive(K.ZERO, K.NO_MOVES))

  /** The peer blocks in SEND, Init rewrites its registers, and then Init receives. */
  function Mislabelling(): seq<Entry> {
    K.Talking(false) + [UserCode(0, Rewrite())] + [WRITE] + [UserCode(0, ZeroRegisters())]
  }

  lemma ThreeRegisters(w: Word)
    requires w == {0, 1}
    ensures Field(w, 0, 64) == 3
  {
    K.FieldZero(w, 2, 62);
    assert Field(w, 1, 63) == 1;
  }

  lemma NothingToCopy(w: Word)
    requires w == {14}
    ensures MessageLength(w) == 0 && TransferCount(w) == 0
  {
    K.FieldZero(w, 1, 8);
    K.FieldZero(w, 9, 4);
  }

  /** The peer is queued as a sender with `word` as its info word. */
  ghost predicate Queued(s: State, word: Word) {
    K.Waits(s, s.P(K.PEER), ReadyToSend) && s.P(K.PEER).status == BlockedSend && Info(s, K.PEER) == word
  }

  lemma Prepared(s: State, regs: Registers, word: Word)
    requires Queued(s, word) && Normal(regs[MR_MESSAGE_INFO])
    ensures !Breaks(s, UserCode(0, regs)) && Queued(Step(s, UserCode(0, regs)), word)
    ensures Step(s, UserCode(0, regs)).P(K.INIT).regs == regs
  {
  }

  lemma Rewritten(s: State, word: Word, count: Word, claimed: Word)
    requires Queued(s, word) && count == {0, 1}
    requires s.P(K.INIT).regs[MR_REGISTER_COUNT] == count && s.P(K.INIT).regs[REGISTER_START + MR_MESSAGE_INFO] == claimed
    ensures !Breaks(s, WRITE) && Queued(Step(s, WRITE), claimed)
  {
    ThreeRegisters(count);
    var regs := WriteContext(s.P(K.PEER).regs, s.P(K.INIT).regs, REGISTER_START, 3);
    var t := SetRegs(s, K.PEER, regs);
    assert WriteRegisters(s, K.INIT, K.PEER) == (t, Ok);
    assert ExecuteConfigure(s, K.INIT, ReqWriteRegisters(K.PEER)) == (t, Ok);
    assert Step(s, WRITE) == Finish(t, K.INIT, Ok);
  }

  lemma Taken(s: State, claimed: Word)
    requires Queued(s, claimed) && claimed == {14}
    ensures !Breaks(s, TAKE) && Info(Step(s, TAKE), K.INIT) == claimed && B.SameLog(s, Step(s, TAKE))
  {
    NothingToCopy(claimed);
    var info := Info(s, K.INIT);
    var (t, res) := Receive(s, K.INIT, K.ZERO, info, K.NO_MOVES);
    AcceptedWord(PopIpc(s, 0), claimed);
    assert (t, res) == AcceptSender(PopIpc(s, 0), 0, K.INIT, K.PEER, K.NO_MOVES);
    assert Execute(s, 0, K.INIT, ReqReceive(K.ZERO, K.NO_MOVES)) == (t, res);
    assert Step(s, TAKE) == Finish(t, K.INIT, res);
  }

  lemma AcceptedWord(s: State, claimed: Word)
    requires !s.P(K.INIT).dstReady && s.P(K.PEER).fault == NoFault && Info(s, K.PEER) == claimed && claimed == {14}
    ensures var t := AcceptSender(s, 0, K.INIT, K.PEER, K.NO_MOVES).0;
      Info(t, K.INIT) == claimed && t.ntfs == s.ntfs
  {
    NothingToCopy(claimed);
    B.AcceptTakesNone(s, 0, K.INIT, K.PEER, K.NO_MOVES);
    var s1 := TransferMessage(s, 0, K.INIT, K.PEER, claimed, K.NO_MOVES).0;
    var s2 := Forget(s1, K.INIT);
    var s3 := s2.SetP(K.PEER, s2.P(K.PEER).(status := Ready));
    RouteFrame(s3, s3.P(K.INIT).affinity, K.PEER);
  }

  lemma MislabellingReaches() returns (s: State)
    ensures K.Reaches(Mislabelling(), s) && Queued(s, {14}) && s.P(K.INIT).regs == ZeroRegisters()
  {
    var es := K.Talking(false);
    s := K.TalkingReaches(false);
    s := PreparedReaches(es, s, Rewrite(), {0});
    es := es + [UserCode(0, Rewrite())];
    Rewritten(s, {0}, {0, 1}, {14});
    K.Then(es, s, WRITE);
    s := PreparedReaches(es + [WRITE], Step(s, WRITE), ZeroRegisters(), {14});
  }

  lemma PreparedReaches(es: seq<Entry>, s: State, regs: Registers, word: Word) returns (t: State)
    requires K.Reaches(es, s) && Queued(s, word) && Normal(regs[MR_MESSAGE_INFO])
    ensures K.Reaches(es + [UserCode(0, regs)], t) && Queued(t, word) && t.P(K.INIT).regs == regs
  {
    Prepared(s, regs, word);
    K.Then(es, s, UserCode(0, regs));
    t := Step(s, UserCode(0, regs));
  }

  /** An orderly run from boot after which Init holds a notification that no port ever sent. */
  lemma UnsentNotification() returns (s: State)
    ensures K.Reaches(Mislabelling(), s) && !Breaks(s, TAKE) && !Written(s, TAKE, K.INIT)
    ensures Info(Step(s, TAKE), K.INIT) == {14} && !Genuine(s, Step(s, TAKE), K.INIT)
  {
    s := MislabellingReaches();
    TakenWord(s, {14});
  }

  lemma TakenWord(s: State, claimed: Word)
    requires Queued(s, claimed) && claimed == {14} && s.P(K.INIT).regs == ZeroRegisters()
    ensures !Breaks(s, TAKE) && !Written(s, TAKE, K.INIT)
    ensures Info(Step(s, TAKE), K.INIT) == claimed && !Genuine(s, Step(s, TAKE), K.INIT)
  {
    Taken(s, claimed);
    NotGenuine(s, Step(s, TAKE), K.INIT, claimed);
  }

  lemma NotGenuine(s: State, t: State, p: Pid, claimed: Word)
    requires claimed == {14} && Info(t, p) == claimed && Info(s, p) != claimed && B.SameLog(s, t)
    ensures !Genuine(s, t, p)
  {
    forall o: Pid ensures !FaultsTo(t, o, p) { assert 13 in FaultInfo(t.P(o).fault); }
    forall n: NtfId, i: nat ensures !Took(s, t, n, i, p) { assert t.N(n).history == s.N(n).history; }
  }
}
