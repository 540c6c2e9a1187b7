/** server/sniffing/conn.go: a connection wrapper that remembers what was read until the first
    write and hands it to a callback once. */
module Sniffing {
  import opened Bytes

  // Calls one after the other.  The argument of Read is what the wrapped connection delivered.
  class ReadWriterNotice {
    var buf: seq<byte>
    var bufIsNil: bool
    var isNotice: bool
    var isStart: bool
    const hasCallback: bool
    var notices: seq<seq<byte>>     // the arguments of the callback's calls

    ghost const initial: seq<byte>
    ghost var read: seq<byte>       // all bytes read so far
    ghost var beforeWrite: seq<byte>  // those read before the first write

    ghost predicate Valid()
      reads this
    {
      && (!isNotice ==> beforeWrite == read && notices == [])
      && (!isNotice && isStart ==> !bufIsNil && buf == initial + read)
      && (!isStart ==> bufIsNil)
      && (isNotice ==> hasCallback ==> bufIsNil)
      && beforeWrite <= read
      && (notices == [] || notices == [initial + beforeWrite])
    }

    constructor (initial: seq<byte>, hasCallback: bool)
      ensures Valid() && isStart && !isNotice && notices == [] && read == []
      ensures this.initial == initial && this.hasCallback == hasCallback
    {
      this.initial := initial;
      this.hasCallback := hasCallback;
      buf, bufIsNil := initial, false;
      isNotice, isStart := false, true;
      notices, read, beforeWrite := [], [], [];
    }

    method Read(p: seq<byte>) returns (eof: bool)
      requires Valid()
      modifies this
      ensures Valid() && eof == !old(isStart)
      ensures isStart == old(isStart) && isNotice == old(isNotice) && notices == old(notices)
      ensures read == if eof then old(read) else old(read) + p
      ensures beforeWrite == if eof || isNotice then old(beforeWrite) else old(beforeWrite) + p
    {
      if !isStart {
        return true;
      }
      eof := false;
      read := read + p;
      if !isNotice {
        beforeWrite := beforeWrite + p;
        if !bufIsNil {
          buf := buf + p;
        }
      }
    }

    // The first write with the wrapper still open fires, with exactly what was read before it.
    method Write() returns (eof: bool)
      requires Valid()
      modifies this
      ensures Valid() && eof == !old(isStart)
      ensures isStart == old(isStart) && read == old(read) && beforeWrite == old(beforeWrite)
      ensures isNotice == (old(isNotice) || !eof)
      ensures notices == if !eof && !old(isNotice) && hasCallback then [initial + beforeWrite] else old(notices)
    {
      if !isStart {
        return true;
      }
      eof := false;
      if !isNotice {
        isNotice := true;
        if !hasCallback {
          return;
        }
        if bufIsNil {
          return;
        }
        var b := buf;
        buf, bufIsNil := [], true;
        notices := notices + [b];
      }
    }

    method Close() returns (ok: bool)
      requires Valid()
      modifies this
      ensures Valid() && !isStart && ok == old(isStart)
      ensures isNotice == old(isNotice) && notices == old(notices)
      ensures read == old(read) && beforeWrite == old(beforeWrite)
    {
      if !isStart {
        return false;
      }
      isStart := false;
      buf, bufIsNil := [], true;
      return true;
    }
  }
}

/** The same wrapper under one reader, any number of writers and any number of closers at once:
    a step system in which every atomic operation and every section of the lock is one step. */
module SniffingRace {
  import opened Bytes
  import opened Sums
  import opened Wrappers

  datatype ReadPc =
    | Idle
    | Reading                      // passed the isStart check
    | Noting(chunk: seq<byte>)     // read chunk, about to load isNotice
    | Appending(chunk: seq<byte>)  // about to append under the lock

  datatype WritePc =
    | WriteStart
    | Writing
    | Swapping                     // about to compare-and-swap isNotice
    | Taking                       // about to take buf under the lock
    | Firing(b: seq<byte>)         // about to call fc(b)
    | WriteReturned

  datatype ClosePc = CloseStart | Dropping | CloseReturned

  datatype State = State(
    hasCallback: bool,
    initial: seq<byte>,
    buf: Option<seq<byte>>,        // None is nil
    isNotice: bool,
    isStart: bool,
    reader: ReadPc,
    writers: seq<WritePc>,
    closers: seq<ClosePc>,
    read: seq<byte>,               // all bytes read from the wrapped connection, in order
    fired: seq<seq<byte>>          // the arguments of the callback's calls
  )

  datatype Action = Reader(chunk: seq<byte>) | CallWrite | CallClose | Writer(i: nat) | Closer(i: nat)

  function Init(initial: seq<byte>, hasCallback: bool): State {
    State(hasCallback, initial, Some(initial), false, true, Idle, [], [], [], [])
  }

  predicate Enabled(s: State, a: Action) {
    match a
    case Reader(chunk) => true
    case CallWrite => true
    case CallClose => true
    case Writer(i) => i < |s.writers| && s.writers[i] != WriteReturned
    case Closer(i) => i < |s.closers| && s.closers[i] != CloseReturned
  }

  // `chunk` is what the wrapped connection delivers, should this step read from it.
  function ReaderStep(s: State, chunk: seq<byte>): State {
    match s.reader
    case Idle => if s.isStart then s.(reader := Reading) else s
    case Reading => s.(reader := Noting(chunk), read := s.read + chunk)
    case Noting(c) => s.(reader := if s.isNotice then Idle else Appending(c))
    case Appending(c) =>
      s.(reader := Idle, buf := if s.buf.Some? then Some(s.buf.value + c) else None)
  }

  function WriterPc(s: State, i: nat): WritePc
    requires Enabled(s, Writer(i))
  {
    match s.writers[i]
    case WriteStart => if s.isStart then Writing else WriteReturned
    case Writing => Swapping
    case Swapping => if !s.isNotice && s.hasCallback then Taking else WriteReturned
    case Taking => if s.buf.Some? then Firing(s.buf.value) else WriteReturned
    case Firing(b) => WriteReturned
  }

  function WriterStep(s: State, i: nat): State
    requires Enabled(s, Writer(i))
  {
    var t := s.(writers := s.writers[i := WriterPc(s, i)]);
    match s.writers[i]
    case Swapping => t.(isNotice := true)
    case Taking => t.(buf := None)
    case Firing(b) => t.(fired := s.fired + [b])
    case _ => t
  }

  function CloserStep(s: State, i: nat): State
    requires Enabled(s, Closer(i))
  {
    match s.closers[i]
    case CloseStart =>
      if s.isStart then s.(isStart := false, closers := s.closers[i := Dropping])
      else s.(closers := s.closers[i := CloseReturned])
    case Dropping => s.(buf := None, closers := s.closers[i := CloseReturned])
  }

  function Do(s: State, a: Action): State
    requires Enabled(s, a)
  {
    match a
    case Reader(chunk) => ReaderStep(s, chunk)
    case CallWrite => s.(writers := s.writers + [WriteStart])
    case CallClose => s.(closers := s.closers + [CloseStart])
    case Writer(i) => WriterStep(s, i)
    case Closer(i) => CloserStep(s, i)
  }

  function Run(initial: seq<byte>, hasCallback: bool, sched: seq<Action>): Option<State> {
    if sched == [] then Some(Init(initial, hasCallback))
    else
      var before := Run(initial, hasCallback, sched[..|sched| - 1]);
      var a := sched[|sched| - 1];
      if before.Some? && Enabled(before.value, a) then Some(Do(before.value, a)) else None
  }

  function HasClaim(p: WritePc): int { if p == Taking || p.Firing? then 1 else 0 }

  function Pending(r: ReadPc): seq<byte> {
    match r
    case Noting(c) => c
    case Appending(c) => c
    case _ => []
  }

  // The buffer is what was read, up to the chunk the reader still holds, until the first write;
  // afterwards it stays a prefix.
  ghost predicate BufferInv(s: State) {
    s.buf.Some? ==>
      && s.initial <= s.buf.value <= s.initial + s.read
      && (!s.isNotice || s.reader.Appending? ==> s.buf.value + Pending(s.reader) == s.initial + s.read)
  }

  // Whoever won the swap is the only one that may still fire, or has fired.
  ghost predicate OnceInv(s: State) {
    |s.fired| + Sum(s.writers, HasClaim) <= (if s.isNotice then 1 else 0)
  }

  ghost predicate FiredInv(s: State) {
    && (forall k :: 0 <= k < |s.fired| ==> s.initial <= s.fired[k] <= s.initial + s.read)
    && (forall i :: 0 <= i < |s.writers| && s.writers[i].Firing? ==> s.initial <= s.writers[i].b <= s.initial + s.read)
  }

  ghost predicate Inv(s: State) { BufferInv(s) && OnceInv(s) && FiredInv(s) }

  lemma ReaderKeeps(s: State, chunk: seq<byte>)
    requires Inv(s)
    ensures Inv(ReaderStep(s, chunk))
  {
    if s.reader == Reading {
      assert s.initial + (s.read + chunk) == s.initial + s.read + chunk;
    }
  }

  lemma WriterKeepsBuffer(s: State, i: nat)
    requires BufferInv(s) && Enabled(s, Writer(i))
    ensures BufferInv(WriterStep(s, i))
  {
  }

  lemma WriterKeepsOnce(s: State, i: nat)
    requires OnceInv(s) && Enabled(s, Writer(i))
    ensures OnceInv(WriterStep(s, i))
  {
    SumUpdate(s.writers, i, WriterPc(s, i), HasClaim);
    SumAtLeast(s.writers, i, HasClaim);
  }

  lemma WriterKeepsFired(s: State, i: nat)
    requires BufferInv(s) && FiredInv(s) && Enabled(s, Writer(i))
    ensures FiredInv(WriterStep(s, i))
  {
  }

  // Callers come and closers go without touching what the invariant is about.
  lemma OthersKeep(s: State, a: Action)
    requires Inv(s) && Enabled(s, a) && (a.CallWrite? || a.CallClose? || a.Closer?)
    ensures Inv(Do(s, a)) && Do(s, a).initial == s.initial
  {
    if a.CallWrite? {
      SumAppend(s.writers, WriteStart, HasClaim);
    } else if a.Closer? {
      var t := CloserStep(s, a.i);
      assert t.writers == s.writers && t.fired == s.fired && t.read == s.read && t.initial == s.initial;
      assert t.reader == s.reader && t.isNotice == s.isNotice && (t.buf == s.buf || t.buf.None?);
    }
  }

  lemma StepKeeps(s: State, a: Action)
    requires Inv(s) && Enabled(s, a)
    ensures Inv(Do(s, a)) && Do(s, a).initial == s.initial
  {
    match a
    case Reader(chunk) => ReaderKeeps(s, chunk);
    case Writer(i) =>
      WriterKeepsBuffer(s, i);
      WriterKeepsOnce(s, i);
      WriterKeepsFired(s, i);
    case _ => OthersKeep(s, a);
  }

  lemma {:induction false} RunKeeps(initial: seq<byte>, hasCallback: bool, sched: seq<Action>)
    requires Run(initial, hasCallback, sched).Some?
    ensures Inv(Run(initial, hasCallback, sched).value) && Run(initial, hasCallback, sched).value.initial == initial
  {
    if sched != [] {
      RunKeeps(initial, hasCallback, sched[..|sched| - 1]);
      StepKeeps(Run(initial, hasCallback, sched[..|sched| - 1]).value, sched[|sched| - 1]);
    }
  }

  // For every schedule the callback fires at most once, with the initial bytes followed by a
  // prefix of the bytes read, in order.
  lemma FiresAtMostOnce(initial: seq<byte>, hasCallback: bool, sched: seq<Action>)
    requires Run(initial, hasCallback, sched).Some?
    ensures var s := Run(initial, hasCallback, sched).value;
      && |s.fired| <= 1
      && (s.fired != [] ==> initial <= s.fired[0] <= initial + s.read)
  {
    RunKeeps(initial, hasCallback, sched);
    SumNonNegative(Run(initial, hasCallback, sched).value.writers, HasClaim);
  }

  // Nothing that had been read at some moment gets lost: `known` is part of the buffer, of what is
  // about to be handed over, and of what has been.
  ghost predicate Includes(s: State, known: seq<byte>) {
    && known <= s.initial + s.read
    && (s.buf.Some? ==> known <= s.buf.value)
    && (forall k :: 0 <= k < |s.fired| ==> known <= s.fired[k])
    && (forall i :: 0 <= i < |s.writers| && s.writers[i].Firing? ==> known <= s.writers[i].b)
  }

  lemma ReaderIncludes(s: State, chunk: seq<byte>, known: seq<byte>)
    requires Includes(s, known)
    ensures Includes(ReaderStep(s, chunk), known)
  {
    assert s.initial + (s.read + chunk) == s.initial + s.read + chunk;
  }

  lemma WriterIncludes(s: State, i: nat, known: seq<byte>)
    requires Includes(s, known) && Enabled(s, Writer(i))
    ensures Includes(WriterStep(s, i), known)
  {
  }

  lemma CloserIncludes(s: State, i: nat, known: seq<byte>)
    requires Includes(s, known) && Enabled(s, Closer(i))
    ensures Includes(CloserStep(s, i), known)
  {
  }

  lemma IncludesStays(s: State, a: Action, known: seq<byte>)
    requires Includes(s, known) && Enabled(s, a)
    ensures Includes(Do(s, a), known)
  {
    match a
    case Reader(chunk) => ReaderIncludes(s, chunk, known);
    case Writer(i) => WriterIncludes(s, i, known);
    case Closer(i) => CloserIncludes(s, i, known);
    case CallWrite =>
    case CallClose =>
  }

  // Nobody swaps without a write.
  ghost predicate NoticedByWriter(s: State) { s.isNotice ==> s.writers != [] }

  lemma {:induction false} NoticeNeedsWriter(initial: seq<byte>, hasCallback: bool, sched: seq<Action>)
    requires Run(initial, hasCallback, sched).Some?
    ensures NoticedByWriter(Run(initial, hasCallback, sched).value)
  {
    if sched != [] {
      NoticeNeedsWriter(initial, hasCallback, sched[..|sched| - 1]);
    }
  }

  lemma NothingTakenYet(s: State)
    requires Inv(s) && !s.isNotice && s.reader == Idle
    ensures Includes(s, s.initial + s.read)
  {
    SumNonNegative(s.writers, HasClaim);
    forall i | 0 <= i < |s.writers|
      ensures !s.writers[i].Firing?
    {
      SumAtLeast(s.writers, i, HasClaim);
    }
  }

  lemma {:induction false} StaysIncluded(initial: seq<byte>, hasCallback: bool, sched: seq<Action>, more: seq<Action>,
                                         known: seq<byte>)
    requires Run(initial, hasCallback, sched).Some? && Includes(Run(initial, hasCallback, sched).value, known)
    requires Run(initial, hasCallback, sched + more).Some?
    ensures Includes(Run(initial, hasCallback, sched + more).value, known)
  {
    if more == [] {
      assert sched + more == sched;
    } else {
      var earlier := more[..|more| - 1];
      assert (sched + more)[..|sched + more| - 1] == sched + earlier;
      StaysIncluded(initial, hasCallback, sched, earlier, known);
      IncludesStays(Run(initial, hasCallback, sched + earlier).value, more[|more| - 1], known);
    }
  }

  // At any moment before the first write, or before some write has won the swap, with no read under
  // way: if the callback fires, its argument begins with the initial bytes and all bytes read so far.
  lemma FiresWithAllRead(initial: seq<byte>, hasCallback: bool, sched: seq<Action>, more: seq<Action>)
    requires Run(initial, hasCallback, sched).Some? && Run(initial, hasCallback, sched + more).Some?
    requires var s := Run(initial, hasCallback, sched).value; s.reader == Idle && (s.writers == [] || !s.isNotice)
    ensures var t := Run(initial, hasCallback, sched + more).value;
      t.fired != [] ==> initial + Run(initial, hasCallback, sched).value.read <= t.fired[0]
  {
    RunKeeps(initial, hasCallback, sched);
    NoticeNeedsWriter(initial, hasCallback, sched);
    var s := Run(initial, hasCallback, sched).value;
    NothingTakenYet(s);
    StaysIncluded(initial, hasCallback, sched, more, initial + s.read);
  }

  // When it must fire

  function AtFiring(p: WritePc): int { if p.Firing? then 1 else 0 }

  // As long as nobody closes: a write that is through has swapped, whoever swapped fires or has
  // fired, and the buffer is there until it is taken for that.  Without a callback nothing fires.
  ghost predicate DueInv(s: State) {
    && (s.closers == [] ==>
          && s.isStart
          && (forall i :: 0 <= i < |s.writers| && s.writers[i] == WriteReturned ==> s.isNotice)
          && (s.hasCallback && s.isNotice ==> |s.fired| + Sum(s.writers, HasClaim) == 1)
          && (s.hasCallback && s.buf.None? ==> |s.fired| + Sum(s.writers, AtFiring) == 1))
    && (!s.hasCallback ==> s.fired == [] && forall i :: 0 <= i < |s.writers| ==> HasClaim(s.writers[i]) == 0)
  }

  lemma ClaimMoves(s: State, i: nat)
    requires Enabled(s, Writer(i))
    ensures var t := WriterStep(s, i); var p := s.writers[i]; var pc := WriterPc(s, i);
      && Sum(t.writers, HasClaim) == Sum(s.writers, HasClaim) - HasClaim(p) + HasClaim(pc)
      && Sum(t.writers, AtFiring) == Sum(s.writers, AtFiring) - AtFiring(p) + AtFiring(pc)
      && 0 <= Sum(s.writers, AtFiring) <= Sum(s.writers, HasClaim) && HasClaim(p) <= Sum(s.writers, HasClaim)
  {
    var pc := WriterPc(s, i);
    SumUpdate(s.writers, i, pc, HasClaim);
    SumUpdate(s.writers, i, pc, AtFiring);
    SumAtLeast(s.writers, i, HasClaim);
    SumNonNegative(s.writers, AtFiring);
    SumMonotone(s.writers, AtFiring, HasClaim);
  }

  lemma WriterKeepsDue(s: State, i: nat)
    requires OnceInv(s) && DueInv(s) && Enabled(s, Writer(i))
    ensures DueInv(WriterStep(s, i))
  {
    ClaimMoves(s, i);
    if s.writers[i] == Taking {
      NoTakerLeft(s, i);
    }
  }

  // Two claims are one too many.
  lemma NoTakerLeft(s: State, i: nat)
    requires i < |s.writers| && s.writers[i] == Taking
    ensures Sum(s.writers, AtFiring) + 1 <= Sum(s.writers, HasClaim)
  {
    SumMonotone(s.writers[i := WriteStart], AtFiring, HasClaim);
    SumUpdate(s.writers, i, WriteStart, AtFiring);
    SumUpdate(s.writers, i, WriteStart, HasClaim);
  }

  lemma ReaderKeepsDue(s: State, chunk: seq<byte>)
    requires DueInv(s)
    ensures DueInv(ReaderStep(s, chunk))
  {
  }

  lemma CallKeepsDue(s: State)
    requires DueInv(s)
    ensures DueInv(s.(writers := s.writers + [WriteStart]))
  {
    SumAppend(s.writers, WriteStart, HasClaim);
    SumAppend(s.writers, WriteStart, AtFiring);
  }

  lemma CloserKeepsDue(s: State, i: nat)
    requires DueInv(s) && Enabled(s, Closer(i))
    ensures DueInv(CloserStep(s, i))
  {
    assert CloserStep(s, i).closers != [];
  }

  lemma StepKeepsDue(s: State, a: Action)
    requires OnceInv(s) && DueInv(s) && Enabled(s, a)
    ensures DueInv(Do(s, a))
  {
    match a
    case Reader(chunk) => ReaderKeepsDue(s, chunk);
    case CallWrite => CallKeepsDue(s);
    case CallClose =>
    case Writer(i) => WriterKeepsDue(s, i);
    case Closer(i) => CloserKeepsDue(s, i);
  }

  lemma {:induction false} RunDue(initial: seq<byte>, hasCallback: bool, sched: seq<Action>)
    requires Run(initial, hasCallback, sched).Some?
    ensures DueInv(Run(initial, hasCallback, sched).value)
    ensures Run(initial, hasCallback, sched).value.hasCallback == hasCallback
  {
    if sched != [] {
      var earlier := sched[..|sched| - 1];
      RunDue(initial, hasCallback, earlier);
      RunKeeps(initial, hasCallback, earlier);
      StepKeepsDue(Run(initial, hasCallback, earlier).value, sched[|sched| - 1]);
    }
  }

  // For every schedule: once a write is through, nobody has called Close and no writer is on its way
  // to the callback, it has been called exactly once, if there is one.
  lemma FiresForFirstWrite(initial: seq<byte>, hasCallback: bool, sched: seq<Action>, i: nat)
    requires Run(initial, hasCallback, sched).Some?
    requires var s := Run(initial, hasCallback, sched).value;
      && s.closers == [] && i < |s.writers| && s.writers[i] == WriteReturned
      && forall k :: 0 <= k < |s.writers| ==> s.writers[k] != Taking && !s.writers[k].Firing?
    ensures |Run(initial, hasCallback, sched).value.fired| == if hasCallback then 1 else 0
  {
    RunDue(initial, hasCallback, sched);
    var s := Run(initial, hasCallback, sched).value;
    if 0 < Sum(s.writers, HasClaim) {
      var k := SumWitness(s.writers, HasClaim);
    }
    SumNonNegative(s.writers, HasClaim);
  }

  function AtDropping(p: ClosePc): int { if p == Dropping then 1 else 0 }

  ghost predicate CloseInv(s: State) {
    && (forall k :: 0 <= k < |s.closers| && s.closers[k] != CloseStart ==> !s.isStart)
    && (!s.isStart && s.buf.Some? ==> 0 < Sum(s.closers, AtDropping))
  }

  lemma StepCloses(s: State, a: Action)
    requires CloseInv(s) && Enabled(s, a)
    ensures CloseInv(Do(s, a)) && (!s.isStart ==> !Do(s, a).isStart)
  {
    match a
    case Reader(chunk) =>
    case CallWrite =>
    case CallClose => SumAppend(s.closers, CloseStart, AtDropping);
    case Writer(i) => WriterCloses(s, i);
    case Closer(i) => CloserCloses(s, i);
  }

  lemma WriterCloses(s: State, i: nat)
    requires CloseInv(s) && Enabled(s, Writer(i))
    ensures CloseInv(WriterStep(s, i)) && WriterStep(s, i).isStart == s.isStart
  {
  }

  lemma CloserCloses(s: State, i: nat)
    requires CloseInv(s) && Enabled(s, Closer(i))
    ensures CloseInv(CloserStep(s, i)) && (!s.isStart ==> !CloserStep(s, i).isStart)
  {
    var pc := CloserStep(s, i).closers[i];
    SumUpdate(s.closers, i, pc, AtDropping);
    SumNonNegative(s.closers, AtDropping);
  }

  lemma {:induction false} RunCloses(initial: seq<byte>, hasCallback: bool, sched: seq<Action>)
    requires Run(initial, hasCallback, sched).Some?
    ensures CloseInv(Run(initial, hasCallback, sched).value)
  {
    if sched != [] {
      RunCloses(initial, hasCallback, sched[..|sched| - 1]);
      StepCloses(Run(initial, hasCallback, sched[..|sched| - 1]).value, sched[|sched| - 1]);
    }
  }

  // For every schedule: once some Close is past its swap, the wrapper is closed for good, no read
  // starts any more and no new write fires; and once no Close is left in between, the buffer is gone,
  // so that no write under way finds anything to fire with.
  lemma CloseStops(initial: seq<byte>, hasCallback: bool, sched: seq<Action>, k: nat, chunk: seq<byte>)
    requires Run(initial, hasCallback, sched).Some?
    requires var s := Run(initial, hasCallback, sched).value; k < |s.closers| && s.closers[k] != CloseStart
    ensures var s := Run(initial, hasCallback, sched).value;
      && !s.isStart && (s.reader == Idle ==> ReaderStep(s, chunk) == s)
      && (forall i :: 0 <= i < |s.writers| && s.writers[i] == WriteStart ==>
            WriterStep(s, i) == s.(writers := s.writers[i := WriteReturned]))
      && ((forall j :: 0 <= j < |s.closers| ==> s.closers[j] != Dropping) ==> s.buf.None?)
  {
    var s := Run(initial, hasCallback, sched).value;
    if 0 < Sum(s.closers, AtDropping) {
      var j := SumWitness(s.closers, AtDropping);
    }
    RunCloses(initial, hasCallback, sched);
  }

  function Writes(sched: seq<Action>): nat {
    if sched == [] then 0 else Writes(sched[..|sched| - 1]) + if sched[|sched| - 1].CallWrite? then 1 else 0
  }

  function Closes(sched: seq<Action>): nat {
    if sched == [] then 0 else Closes(sched[..|sched| - 1]) + if sched[|sched| - 1].CallClose? then 1 else 0
  }

  // Every call of Write and of Close is under way or has returned.
  lemma {:induction false} CallsAreKept(initial: seq<byte>, hasCallback: bool, sched: seq<Action>)
    requires Run(initial, hasCallback, sched).Some?
    ensures var s := Run(initial, hasCallback, sched).value;
      |s.writers| == Writes(sched) && |s.closers| == Closes(sched)
  {
    if sched != [] {
      CallsAreKept(initial, hasCallback, sched[..|sched| - 1]);
      CallKept(Run(initial, hasCallback, sched[..|sched| - 1]).value, sched[|sched| - 1]);
    }
  }

  lemma CallKept(s: State, a: Action)
    requires Enabled(s, a)
    ensures |Do(s, a).writers| == |s.writers| + if a.CallWrite? then 1 else 0
    ensures |Do(s, a).closers| == |s.closers| + if a.CallClose? then 1 else 0
  {
  }
}
