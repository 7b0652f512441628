/**
 The mailbox through which other threads steer a running agent: a FIFO that accepts entries only while
 it is active.
 */
module Steering {
  import opened Common

  datatype Entry = Entry(id: string, text: string, sequence: Option<int>)

  datatype State = New | Active | Closed

  // `accepted` is every entry ever let in, `reclaimed` what another thread took out by closing.
  datatype Mailbox = Mailbox(state: State, pending: seq<Entry>, accepted: seq<Entry>, reclaimed: seq<Entry>)

  predicate WellFormed(e: Entry) {
    Strip(e.id) != "" && Strip(e.text) != "" && (e.sequence.Some? ==> e.sequence.value > 0)
  }

  predicate AllWellFormed(entries: seq<Entry>) {
    forall i :: 0 <= i < |entries| ==> WellFormed(entries[i])
  }

  function Ids(entries: seq<Entry>): set<string> { set i | 0 <= i < |entries| :: entries[i].id }

  predicate DistinctIds(entries: seq<Entry>) {
    forall i, j :: 0 <= i < j < |entries| ==> entries[i].id != entries[j].id
  }

  predicate Inv(m: Mailbox) {
    && DistinctIds(m.pending)
    && (m.state.New? ==> m.accepted == [] && m.pending == [])
    && (m.reclaimed != [] ==> m.state.Closed? && m.pending == [])
  }

  /** What other threads may do to the mailbox: only add at the end, close it, or close and take all. */
  ghost predicate OthersActed(a: Mailbox, b: Mailbox) {
    && a.accepted <= b.accepted
    && (a.state.Closed? ==> b.state.Closed? && b.accepted == a.accepted)
    && (b.state.New? <==> a.state.New?)
    && a.reclaimed <= b.reclaimed
    && b.reclaimed + b.pending == a.reclaimed + a.pending + b.accepted[|a.accepted|..]
  }

  lemma OthersActChains(a: Mailbox, b: Mailbox, c: Mailbox)
    requires OthersActed(a, b) && OthersActed(b, c)
    ensures OthersActed(a, c)
  {
    var x, y := b.accepted[|a.accepted|..], c.accepted[|b.accepted|..];
    assert c.accepted[|a.accepted|..] == x + y;
    assert (a.reclaimed + a.pending + x) + y == a.reclaimed + a.pending + (x + y);
  }

  // The mailbox takes these entries back.
  predicate Restorable(m: Mailbox, entries: seq<Entry>) {
    || entries == []
    || (AllWellFormed(entries) && m.state.Active? && DistinctIds(entries) && Ids(entries) !! Ids(m.pending))
  }

  // What waited still waits, unless a closer took it.
  lemma WaitingStays(a: Mailbox, b: Mailbox)
    requires OthersActed(a, b) && b.reclaimed == a.reclaimed
    ensures a.pending <= b.pending
  {
    var more := b.accepted[|a.accepted|..];
    assert a.reclaimed + b.pending == a.reclaimed + (a.pending + more);
    assert b.pending == (a.reclaimed + b.pending)[|a.reclaimed|..] == a.pending + more;
  }

  lemma NobodyActed(a: Mailbox)
    ensures OthersActed(a, a)
  {
    assert a.accepted[|a.accepted|..] == [];
  }

  class SteerMailbox {
    var state: State
    var pending: seq<Entry>
    var pendingIds: set<string>
    ghost var accepted: seq<Entry>
    ghost var reclaimed: seq<Entry>

    ghost function View(): Mailbox
      reads this
    {
      Mailbox(state, pending, accepted, reclaimed)
    }

    ghost predicate Valid()
      reads this
    {
      Inv(View()) && pendingIds == Ids(pending)
    }

    constructor ()
      ensures Valid() && View() == Mailbox(New, [], [], [])
    {
      state, pending, pendingIds, accepted, reclaimed := New, [], {}, [], [];
    }

    method Activate() returns (activated: bool)
      requires Valid()
      modifies this`state
      ensures Valid() && activated == old(state).New?
      ensures state == if activated then Active else old(state)
    {
      activated := state.New?;
      if activated {
        state := Active;
      }
    }

    method Submit(entry: Entry) returns (submitted: bool)
      requires Valid()
      modifies this
      ensures Valid() && OthersActed(old(View()), View())
      ensures submitted <==> WellFormed(entry) && old(state).Active? && entry.id !in Ids(old(pending))
      ensures accepted == if submitted then old(accepted) + [entry.(text := Strip(entry.text))] else old(accepted)
      ensures pending == if submitted then old(pending) + [entry.(text := Strip(entry.text))] else old(pending)
      ensures reclaimed == old(reclaimed) && state == old(state)
    {
      submitted := WellFormed(entry) && state.Active? && entry.id !in pendingIds;
      if submitted {
        var normalized := entry.(text := Strip(entry.text));
        pending := pending + [normalized];
        pendingIds := pendingIds + {entry.id};
        accepted := accepted + [normalized];
        assert accepted[|old(accepted)|..] == [normalized];
        assert Ids(pending) == Ids(old(pending)) + {entry.id} by { IdsOfPut(old(pending), normalized); }
      }
    }

    // The loop takes everything that waits.
    method Drain() returns (taken: seq<Entry>)
      requires Valid()
      modifies this`pending, this`pendingIds
      ensures Valid() && taken == old(pending) && pending == []
    {
      taken := pending;
      pending, pendingIds := [], {};
    }

    method Close()
      requires Valid()
      modifies this`state
      ensures Valid() && state.Closed?
      ensures !old(state).New? ==> OthersActed(old(View()), View())
    {
      state := Closed;
    }

    method CloseAndDrain() returns (taken: seq<Entry>)
      requires Valid()
      modifies this`state, this`pending, this`pendingIds
      ensures Valid() && state.Closed? && taken == old(pending) && pending == []
    {
      state := Closed;
      taken := pending;
      pending, pendingIds := [], {};
    }

    // Another thread closes the mailbox and keeps what waits.
    method Reclaim() returns (taken: seq<Entry>)
      requires Valid() && !state.New?
      modifies this
      ensures Valid() && OthersActed(old(View()), View()) && taken == old(pending)
    {
      taken := CloseAndDrain();
      reclaimed := reclaimed + taken;
      assert old(reclaimed) == [] || taken == [];
    }

    /** Puts drained entries back in front, in their order; refused - without any change - when the
        mailbox is no longer active or an id has been taken in the meantime. */
    method RestoreFront(entries: seq<Entry>) returns (restored: bool)
      requires Valid()
      modifies this`pending, this`pendingIds
      ensures Valid()
      ensures restored <==> Restorable(old(View()), entries)
      ensures pending == if restored then entries + old(pending) else old(pending)
    {
      if entries == [] {
        return true;
      }
      restored := AllWellFormed(entries) && state.Active? && DistinctIds(entries) && Ids(entries) !! pendingIds;
      if restored {
        DistinctIdsOfSum(entries, pending);
        IdsOfSum(entries, pending);
        pendingIds := pendingIds + Ids(entries);
        pending := entries + pending;
      }
    }

    // Other threads submit any number of entries and may close the mailbox, with or without taking all.
    method Interfere()
      requires Valid()
      modifies this
      ensures Valid() && OthersActed(old(View()), View())
    {
      hide Inv, OthersActed;
      NobodyActed(View());
      var more: nat := *;
      while more > 0
        invariant Valid() && OthersActed(old(View()), View())
      {
        ghost var before := View();
        var entry: Entry := *;
        var submitted := Submit(entry);
        OthersActChains(old(View()), before, View());
        more := more - 1;
      }
      var closes: bool, drains: bool := *, *;
      if closes && !state.New? {
        ghost var before := View();
        if drains {
          var taken := Reclaim();
        } else {
          Close();
        }
        OthersActChains(old(View()), before, View());
      }
    }
  }

  lemma IdsOfPut(entries: seq<Entry>, e: Entry)
    ensures Ids(entries + [e]) == Ids(entries) + {e.id}
  {
    IdsOfSum(entries, [e]);
    assert [e][0] == e;
  }

  lemma IdsOfSum(a: seq<Entry>, b: seq<Entry>)
    ensures Ids(a + b) == Ids(a) + Ids(b)
  {
    forall id | id in Ids(a) + Ids(b) ensures id in Ids(a + b) {
      if id in Ids(a) {
        var i :| 0 <= i < |a| && a[i].id == id;
        assert (a + b)[i] == a[i];
      } else {
        var i :| 0 <= i < |b| && b[i].id == id;
        assert (a + b)[|a| + i] == b[i];
      }
    }
  }

  lemma DistinctIdsOfSum(a: seq<Entry>, b: seq<Entry>)
    requires DistinctIds(a) && DistinctIds(b) && Ids(a) !! Ids(b)
    ensures DistinctIds(a + b)
  {
    forall i, j | 0 <= i < j < |a + b| ensures (a + b)[i].id != (a + b)[j].id {
      if i < |a| <= j {
        assert a[i].id in Ids(a) && b[j - |a|].id in Ids(b);
      }
    }
  }
}
