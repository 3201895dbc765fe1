/** The trap frame, which the kernel reads and writes in place, and the register snapshots taken
    from it and loaded into it (src/object.rs, src/abi.rs). */
module TrapFrames {
  import opened Words
  import opened Objects

  /** Registers as the interrupted thread left them. */
  class TrapFrame {
    var syscall: Word
    var tag: MessageTag
    const mrs: array<Word>
    const raw: array<Word>

    ghost const Repr: set<object>

    ghost predicate Valid() {
      Repr == {this, mrs, raw} && mrs != raw && mrs.Length == MR_COUNT && raw.Length == RAW_WORDS
    }

    /** The registers as a value. */
    ghost function View(): Context
      requires Valid()
      reads this, mrs, raw
    {
      Context(syscall, tag, mrs[..], raw[..])
    }

    constructor Zeroed()
      ensures Valid() && fresh(Repr) && View() == ZeroContext()
    {
      syscall := 0;
      tag := NO_TAG;
      var m := new Word[MR_COUNT](i => 0);
      var r := new Word[RAW_WORDS](i => 0);
      mrs, raw := m, r;
      Repr := {this, m, r};
      new;
      assert mrs[..] == [0, 0, 0, 0];
      assert raw[..] == seq(RAW_WORDS, i => 0);
    }

    method SetMr(i: nat, w: Word)
      requires Valid() && i < MR_COUNT
      modifies mrs
      ensures View() == old(View()).SetMr(i, w)
    {
      mrs[i] := w;
      assert mrs[..] == old(mrs[..])[i := w];
    }

    method SetTag(t: MessageTag)
      requires Valid()
      modifies this`tag
      ensures View() == old(View()).(tag := t)
    {
      tag := t;
    }

    /** A received message: the message registers and the tag, the error flag cleared. */
    method Deliver(mr0: Word, payload: Payload, t: MessageTag)
      requires Valid()
      modifies mrs, this`tag
      ensures View() == ReplySuccess(old(View()).Deliver(mr0, payload, t))
    {
      SetMr(0, mr0);
      SetMr(1, payload.mr1);
      SetMr(2, payload.mr2);
      SetMr(3, payload.mr3);
      SetTag(t);
      assert View().mrs == [mr0, payload.mr1, payload.mr2, payload.mr3];
      Succeed();
    }

    method Succeed()
      requires Valid()
      modifies this`tag
      ensures View() == ReplySuccess(old(View()))
    {
      tag := tag.(error := false);
    }

    method Fail(e: SyscallError)
      requires Valid()
      modifies mrs, this`tag
      ensures View() == ReplyError(old(View()), e)
    {
      SetMr(0, e.Code());
      tag := tag.(error := true);
    }

    /** Copies the interrupted thread's registers out of the frame. */
    method Save() returns (c: Context)
      requires Valid()
      ensures c == View()
    {
      var savedMrs := new Word[MR_COUNT];
      for i := 0 to MR_COUNT
        invariant savedMrs[..i] == mrs[..i]
      {
        savedMrs[i] := mrs[i];
      }
      assert savedMrs[..] == savedMrs[..MR_COUNT] == mrs[..MR_COUNT] == mrs[..];
      var savedRaw := new Word[RAW_WORDS];
      for i := 0 to RAW_WORDS
        invariant savedRaw[..i] == raw[..i] && savedMrs[..] == mrs[..]
      {
        savedRaw[i] := raw[i];
      }
      assert savedRaw[..] == savedRaw[..RAW_WORDS] == raw[..RAW_WORDS] == raw[..];
      c := Context(syscall, tag, savedMrs[..], savedRaw[..]);
    }

    /** Loads a snapshot: the trap returns to the thread it was taken from. */
    method Restore(c: Context)
      requires Valid()
      modifies this`syscall, this`tag, mrs, raw
      ensures View() == c
    {
      syscall := c.syscall;
      tag := c.tag;
      for i := 0 to MR_COUNT
        invariant mrs[..i] == c.mrs[..i]
        invariant syscall == c.syscall && tag == c.tag
      {
        mrs[i] := c.mrs[i];
      }
      for i := 0 to RAW_WORDS
        invariant raw[..i] == c.raw[..i]
        invariant mrs[..MR_COUNT] == c.mrs[..MR_COUNT]
        invariant syscall == c.syscall && tag == c.tag
      {
        raw[i] := c.raw[i];
      }
      assert mrs[..] == mrs[..MR_COUNT] && raw[..] == raw[..RAW_WORDS];
      assert c.mrs == c.mrs[..MR_COUNT] && c.raw == c.raw[..RAW_WORDS];
    }
  }

  /** What is saved from one frame and restored into another arrives unchanged. */
  method SaveRestoreRoundTrip(from: TrapFrame, to: TrapFrame)
    requires from.Valid() && to.Valid() && from.Repr !! to.Repr
    modifies to.Repr
    ensures to.View() == from.View() == old(from.View())
  {
    var c := from.Save();
    to.Restore(c);
  }
}
