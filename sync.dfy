/**
 * The one-shot exit-status cell (`WaitableCell`) as the unix `Instance` uses
 * it: created empty, `set` by the first writer only, a drop guard that writes
 * a default when it is released while the cell is still empty, and
 * `wait_timeout`, which yields nothing or the published value.
 *
 * The cell is specialised to what the instance stores in it: an exit status
 * and the instant it was recorded. Clones of the cell share it, so a clone is
 * the same object here.
 */
module Sync {
  import opened Base

  /** An abstract instant, standing for `DateTime<Utc>`. */
  datatype Time = Time(ticks: int)

  /** What the cell publishes: `(u32, DateTime<Utc>)`. */
  datatype ExitStatus = ExitStatus(code: u32, at: Time)

  /** One write attempt on the cell: it lands only if the cell is still empty. */
  function Publish(cell: Option<ExitStatus>, v: ExitStatus): Option<ExitStatus>
  {
    if cell.None? then Some(v) else cell
  }

  /** The cell after a series of write attempts, in order. */
  function PublishAll(cell: Option<ExitStatus>, vs: seq<ExitStatus>): Option<ExitStatus>
    decreases |vs|
  {
    if vs == [] then cell else PublishAll(Publish(cell, vs[0]), vs[1..])
  }

  /** Once published, the value never changes, whatever is written afterwards. */
  lemma {:induction false} PublishedIsFinal(v: ExitStatus, vs: seq<ExitStatus>)
    ensures PublishAll(Some(v), vs) == Some(v)
    decreases |vs|
  {
    if vs != [] {
      PublishedIsFinal(v, vs[1..]);
    }
  }

  /** From an empty cell, the first write is the one every reader sees. */
  lemma FirstWriterWins(vs: seq<ExitStatus>)
    requires |vs| > 0
    ensures PublishAll(None, vs) == Some(vs[0])
  {
    PublishedIsFinal(vs[0], vs[1..]);
  }

  /** Write attempts compose: a later batch only ever sees the outcome of the earlier one. */
  lemma {:induction false} PublishAllAppend(cell: Option<ExitStatus>, a: seq<ExitStatus>, b: seq<ExitStatus>)
    ensures PublishAll(cell, a + b) == PublishAll(PublishAll(cell, a), b)
    decreases |a|
  {
    if a != [] {
      assert (a + b)[0] == a[0];
      assert (a + b)[1..] == a[1..] + b;
      PublishAllAppend(Publish(cell, a[0]), a[1..], b);
    } else {
      assert a + b == b;
    }
  }

  /** A cell that is ever written is never empty again, and it holds one of the written values. */
  lemma {:induction false} PublishAllHoldsAWrite(cell: Option<ExitStatus>, vs: seq<ExitStatus>)
    requires cell.Some? || |vs| > 0
    ensures PublishAll(cell, vs).Some?
    ensures PublishAll(cell, vs) == cell || (cell.None? && PublishAll(cell, vs).value in vs)
  {
    if cell.Some? {
      PublishedIsFinal(cell.value, vs);
    } else {
      FirstWriterWins(vs);
    }
  }

  class WaitableCell {
    var value: Option<ExitStatus>

    /** `WaitableCell::new()`: empty. */
    constructor ()
      ensures value == None
    {
      value := None;
    }

    /** `set`: succeeds for the first writer only; later writers change nothing. */
    method Set(v: ExitStatus) returns (ok: bool)
      modifies this
      ensures ok <==> old(value).None?
      ensures value == Publish(old(value), v)
    {
      ok := value.None?;
      if ok {
        value := Some(v);
      }
    }

    /** `set_guard_with`: arms a guard whose default code is `code`; the cell is untouched. */
    method SetGuardWith(code: u32) returns (g: ExitGuard)
      ensures fresh(g) && g.cell == this && g.code == code && g.armed
    {
      g := new ExitGuard(this, code);
    }

    /**
     * `wait_timeout`: the published value, or nothing while the cell is empty
     * (the timeout ran out first). Reading leaves the cell as it was.
     */
    method WaitTimeout() returns (r: Option<ExitStatus>)
      ensures r.None? <==> value.None?
      ensures r.Some? ==> r == value
    {
      r := value;
    }
  }

  /**
   * The guard `set_guard_with(|| (code, Utc::now()))` returns. Rust's
   * ownership drops it exactly once; `armed` records that it has not been
   * dropped yet. The default's instant is taken when the guard is dropped.
   */
  class ExitGuard {
    const cell: WaitableCell
    const code: u32
    var armed: bool

    constructor (cell: WaitableCell, code: u32)
      ensures this.cell == cell && this.code == code && armed
    {
      this.cell := cell;
      this.code := code;
      armed := true;
    }

    /** Dropping the guard writes `(code, now)` if nothing was published yet. */
    method Drop(now: Time)
      requires armed
      modifies this, cell
      ensures !armed
      ensures cell.value == Publish(old(cell.value), ExitStatus(code, now))
    {
      armed := false;
      if cell.value.None? {
        cell.value := Some(ExitStatus(code, now));
      }
    }
  }
}
