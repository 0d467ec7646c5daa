/** The message history compacted in place, and the list of recipients. */
module HubHistory {
  import opened Prelude
  import opened HubModel
  import HubRuns

  /** sanitizeRecipients; None stands for an id that uuid.Parse refuses. */
  method SanitizeRecipients(raw: seq<Option<DeviceId>>, self: DeviceId) returns (out: seq<DeviceId>, ok: bool)
    ensures out == Recipients(raw, self)
    ensures ok <==> raw == [] || out != []
  {
    out := [];
    if raw == [] {
      return out, true;
    }
    var seen: set<DeviceId> := {};
    var i := 0;
    while i < |raw|
      invariant i <= |raw| && out == Recipients(raw[..i], self)
      invariant forall id :: id in seen <==> id in out
      invariant i < |raw| ==> |out| < MAX_RECIPIENTS
    {
      assert raw[..i + 1][..i] == raw[..i];
      var id := raw[i];
      i := i + 1;
      if id.None? || id.value == self || id.value in seen {
        continue;
      }
      seen := seen + {id.value};
      out := out + [id.value];
      if |out| == MAX_RECIPIENTS {
        FullListStays(raw, i, self);
        break;
      }
    }
    assert raw[..|raw|] == raw;
    ok := |out| > 0;
  }

  /** A full list of recipients takes nobody else. */
  lemma {:induction false} FullListStays(raw: seq<Option<DeviceId>>, i: nat, self: DeviceId)
    requires i <= |raw| && |Recipients(raw[..i], self)| == MAX_RECIPIENTS
    ensures Recipients(raw, self) == Recipients(raw[..i], self)
    decreases |raw|
  {
    if i < |raw| {
      var front := raw[..|raw| - 1];
      assert front[..i] == raw[..i];
      FullListStays(front, i, self);
    } else {
      assert raw[..i] == raw;
    }
  }

  /** h.history: a slice, and the array behind it. */
  class MessageLog {
    var buf: array<Msg>
    var len: nat
    const blank: Msg                 // what unused array cells hold

    ghost predicate Valid()
      reads this
    {
      len <= buf.Length
    }

    ghost function Contents(): seq<Msg>
      reads this, buf
      requires Valid()
    {
      buf[..len]
    }

    constructor (blank: Msg)
      ensures Valid() && Contents() == [] && fresh(buf)
    {
      this.blank := blank;
      buf := new Msg[64](_ => blank);
      len := 0;
    }

    /** addToHistory: drop what is older than the cutoff, in place, and append. */
    method Add(cutoff: int, msg: Msg)
      requires Valid()
      modifies this, buf
      ensures Valid() && (buf == old(buf) || fresh(buf))
      ensures Contents() == Fresh(old(Contents()), cutoff) + [msg]
    {
      Compact(cutoff);
      if len == buf.Length {
        Grow();
      }
      buf[len] := msg;
      len := len + 1;
    }

    /** The loop over h.history that appends to h.history[:0]. */
    method Compact(cutoff: int)
      requires Valid()
      modifies this`len, buf
      ensures Valid() && Contents() == Fresh(old(Contents()), cutoff)
    {
      ghost var was, kept := Contents(), [];
      var a, n, i := buf, 0, 0;
      assert kept == Fresh(was[..i], cutoff);
      hide Fresh;
      while i < len
        invariant n == |kept| <= i <= len == old(len) <= a.Length && buf == a
        invariant kept == Fresh(was[..i], cutoff)
        invariant forall j :: 0 <= j < n ==> a[j] == kept[j]
        invariant forall j :: i <= j < len ==> a[j] == was[j]
      {
        FreshNext(was, i, cutoff);
        if a[i].stamp >= cutoff {
          a[n] := a[i];
          n, kept := n + 1, kept + [was[i]];
        }
        i := i + 1;
      }
      assert was[..len] == was;
      len := n;
    }

    method Grow()
      requires Valid()
      modifies this`buf
      ensures Valid() && fresh(buf) && len < buf.Length && Contents() == old(Contents())
    {
      ghost var was := Contents();
      var bigger := new Msg[2 * buf.Length + 1](_ => blank);
      var i := 0;
      while i < len
        invariant Valid() && i <= len < bigger.Length && Contents() == was
        invariant forall j :: 0 <= j < i ==> bigger[j] == was[j]
      {
        bigger[i] := buf[i];
        i := i + 1;
      }
      assert bigger[..len] == was;
      buf := bigger;
    }

    /** The loop of sendHistory. */
    method Collect(cutoff: int, device: DeviceId) returns (msgs: seq<Msg>)
      requires Valid()
      ensures msgs == Visible(Fresh(Contents(), cutoff), device)
    {
      msgs := [];
      var i := 0;
      while i < len
        invariant i <= len
        invariant msgs == Visible(Fresh(buf[..i], cutoff), device)
      {
        var m := buf[i];
        assert buf[..i + 1] == buf[..i] + [m];
        ShownNext(buf[..i], m, cutoff, device);
        if m.stamp >= cutoff && VisibleTo(m, device) {
          msgs := msgs + [m];
        }
        i := i + 1;
      }
    }
  }

  lemma FreshNext(ms: seq<Msg>, i: nat, cutoff: int)
    requires i < |ms|
    ensures Fresh(ms[..i + 1], cutoff) == Fresh(ms[..i], cutoff) + (if ms[i].stamp >= cutoff then [ms[i]] else [])
  {
    assert ms[..i + 1] == ms[..i] + [ms[i]];
    HubRuns.FreshSnoc(ms[..i], ms[i], cutoff);
  }

  lemma ShownNext(ms: seq<Msg>, m: Msg, cutoff: int, device: DeviceId)
    ensures Visible(Fresh(ms + [m], cutoff), device) ==
            Visible(Fresh(ms, cutoff), device) + (if m.stamp >= cutoff && VisibleTo(m, device) then [m] else [])
  {
    HubRuns.FreshSnoc(ms, m, cutoff);
    HubRuns.VisibleSnoc(Fresh(ms, cutoff), m, device);
    assert m.stamp < cutoff ==> Fresh(ms + [m], cutoff) == Fresh(ms, cutoff);
  }
}
