/** The server side of a run's event stream: reads after a cursor, and resuming from one (api/v1/runs.py). */
module SseCursor {
  import opened Common
  import Sse

  datatype Entry = Entry(id: nat, data: string)

  predicate Ascending(stream: seq<Entry>) { forall i, j :: 0 <= i < j < |stream| ==> stream[i].id < stream[j].id }

  /** The entries after one identifier up to another. */
  function Between(stream: seq<Entry>, after: nat, upto: nat): seq<Entry> {
    if stream == [] then []
    else
      var last := stream[|stream| - 1];
      Between(stream[..|stream| - 1], after, upto) + if after < last.id <= upto then [last] else []
  }

  const READ_COUNT: nat := 100

  /** The entries after the cursor, which end the stream. */
  function After(stream: seq<Entry>, cursor: nat): seq<Entry> {
    if stream == [] || stream[|stream| - 1].id <= cursor then []
    else After(stream[..|stream| - 1], cursor) + [stream[|stream| - 1]]
  }

  /** One read: the first entries after the cursor. */
  function ReadAfter(stream: seq<Entry>, cursor: nat): seq<Entry> { Take(After(stream, cursor), READ_COUNT) }

  predicate AllUpto(stream: seq<Entry>, id: nat) { forall i :: 0 <= i < |stream| ==> stream[i].id <= id }

  lemma {:induction false} NoneAbove(stream: seq<Entry>, after: nat, upto: nat)
    requires AllUpto(stream, after)
    ensures Between(stream, after, upto) == []
    decreases |stream|
  {
    if stream != [] { NoneAbove(stream[..|stream| - 1], after, upto); }
  }

  lemma AllUptoLast(stream: seq<Entry>)
    requires Ascending(stream) && stream != []
    ensures AllUpto(stream, stream[|stream| - 1].id)
    ensures forall i :: 0 <= i < |stream| - 1 ==> stream[i].id < stream[|stream| - 1].id
  {
  }

  /** Resuming after a cursor continues where it stood: nothing is lost and nothing comes twice. */
  lemma {:induction false} BetweenJoins(stream: seq<Entry>, a: nat, b: nat, c: nat)
    requires Ascending(stream) && a <= b <= c
    ensures Between(stream, a, c) == Between(stream, a, b) + Between(stream, b, c)
    decreases |stream|
  {
    if stream != [] {
      var init, last := stream[..|stream| - 1], stream[|stream| - 1];
      BetweenJoins(init, a, b, c);
      AllUptoLast(stream);
      if last.id <= b { NoneAbove(init, b, c); }
    }
  }

  lemma {:induction false} AfterIsBetween(stream: seq<Entry>, cursor: nat, upto: nat)
    requires Ascending(stream) && AllUpto(stream, upto)
    ensures After(stream, cursor) == Between(stream, cursor, upto)
    decreases |stream|
  {
    if stream != [] {
      var init, last := stream[..|stream| - 1], stream[|stream| - 1];
      if last.id <= cursor {
        AllUptoLast(stream);
        NoneAbove(stream, cursor, upto);
      } else {
        AfterIsBetween(init, cursor, upto);
      }
    }
  }

  predicate Holds(stream: seq<Entry>, id: nat) { exists i :: 0 <= i < |stream| && stream[i].id == id }

  /**
   * A read yields exactly the entries between the old cursor and the last identifier read; it is empty only when there
   * is nothing new.
   */
  lemma {:induction false} ReadIsBetween(stream: seq<Entry>, cursor: nat)
    requires Ascending(stream)
    ensures ReadAfter(stream, cursor) == [] ==> AllUpto(stream, cursor)
    ensures var read := ReadAfter(stream, cursor);
            read != [] ==> var next := read[|read| - 1].id;
                           next > cursor && Holds(stream, next) && read == Between(stream, cursor, next)
    ensures var read := ReadAfter(stream, cursor);
            |read| <= 100 && (|read| < 100 && read != [] ==> AllUpto(stream, read[|read| - 1].id))
    decreases |stream|
  {
    if stream != [] {
      var init, last := stream[..|stream| - 1], stream[|stream| - 1];
      AllUptoLast(stream);
      if last.id > cursor {
        if |After(init, cursor)| >= READ_COUNT {
          ReadIsBetween(init, cursor);
          assert ReadAfter(stream, cursor) == ReadAfter(init, cursor);
          var read := ReadAfter(init, cursor);
          var i :| 0 <= i < |init| && init[i].id == read[|read| - 1].id;
          assert stream[i].id == read[|read| - 1].id;
        } else {
          assert ReadAfter(stream, cursor) == After(stream, cursor);
          AfterIsBetween(stream, cursor, last.id);
          assert stream[|stream| - 1].id == last.id;
        }
      }
    }
  }

  /** Entries appended later lie above every identifier already in the stream. */
  lemma {:induction false} BetweenGrows(stream: seq<Entry>, more: seq<Entry>, after: nat, upto: nat)
    requires Ascending(stream + more) && (upto <= after || Holds(stream, upto))
    ensures Between(stream + more, after, upto) == Between(stream, after, upto)
    decreases |more|
  {
    if more == [] {
      assert stream + more == stream;
    } else {
      var all := stream + more;
      assert all[..|all| - 1] == stream + more[..|more| - 1];
      if Holds(stream, upto) {
        var i :| 0 <= i < |stream| && stream[i].id == upto;
        assert all[i].id < all[|all| - 1].id;
      }
      BetweenGrows(stream, more[..|more| - 1], after, upto);
    }
  }

  lemma SeenGrows(before: seq<Entry>, stream: seq<Entry>, start: nat, cursor: nat)
    requires Ascending(stream) && before <= stream && start <= cursor && (cursor > start ==> Holds(before, cursor))
    ensures Between(stream, start, cursor) == Between(before, start, cursor)
            && (cursor > start ==> Holds(stream, cursor))
  {
    assert stream == before + stream[|before|..];
    BetweenGrows(before, stream[|before|..], start, cursor);
    if cursor > start {
      var i :| 0 <= i < |before| && before[i].id == cursor;
      assert stream[i].id == cursor;
    }
  }

  /** What is written for an entry. */
  function Shown(entries: seq<Entry>, show: nat -> string): seq<Sse.Emission> {
    seq(|entries|, i requires 0 <= i < |entries| => Sse.Message(show(entries[i].id), entries[i].data))
  }

  function DataIn(entries: seq<Entry>): seq<string> { seq(|entries|, i requires 0 <= i < |entries| => entries[i].data) }

  lemma DataOfConcat(a: seq<Sse.Emission>, b: seq<Sse.Emission>)
    ensures Sse.DataOf(a + b) == Sse.DataOf(a) + Sse.DataOf(b)
  {
    CollectConcat(Sse.DataList, a, b);
  }

  lemma {:induction false} DataOfShown(entries: seq<Entry>, show: nat -> string)
    ensures Sse.DataOf(Shown(entries, show)) == DataIn(entries)
    decreases |entries|
  {
    if entries != [] {
      var init := entries[..|entries| - 1];
      DataOfShown(init, show);
      assert Shown(entries, show)[..|entries| - 1] == Shown(init, show);
      assert DataIn(entries) == DataIn(init) + [entries[|entries| - 1].data];
    }
  }

  /** What one read makes the generator write: its messages, or a keep-alive when it finds nothing. */
  function Round(stream: seq<Entry>, cursor: nat, show: nat -> string): seq<Sse.Emission> {
    var messages := ReadAfter(stream, cursor);
    if messages == [] then [Sse.KeepAlive] else Shown(messages, show)
  }

  /** Where it leaves the cursor. */
  function Advanced(stream: seq<Entry>, cursor: nat): nat {
    var messages := ReadAfter(stream, cursor);
    if messages == [] then cursor else messages[|messages| - 1].id
  }

  lemma RoundYields(stream: seq<Entry>, start: nat, cursor: nat, emitted: seq<Sse.Emission>, show: nat -> string)
    requires Ascending(stream) && start <= cursor && Sse.DataOf(emitted) == DataIn(Between(stream, start, cursor))
    ensures cursor <= Advanced(stream, cursor)
            && (cursor < Advanced(stream, cursor) ==> Holds(stream, Advanced(stream, cursor)))
    ensures Sse.DataOf(emitted + Round(stream, cursor, show)) ==
            DataIn(Between(stream, start, Advanced(stream, cursor)))
  {
    ReadIsBetween(stream, cursor);
    var messages := ReadAfter(stream, cursor);
    DataOfConcat(emitted, Round(stream, cursor, show));
    if messages == [] {
      assert [Sse.KeepAlive][..0] == [];
    } else {
      BetweenJoins(stream, start, cursor, messages[|messages| - 1].id);
      DataOfShown(messages, show);
      DataInConcat(Between(stream, start, cursor), messages);
    }
  }

  function MessageList(e: Sse.Emission): seq<Sse.Emission> { if e.Message? then [e] else [] }

  /** What was written other than keep-alives. */
  function Messages(emitted: seq<Sse.Emission>): seq<Sse.Emission> { Collect(MessageList, emitted) }

  /** The entries' messages: each under its own identifier, with its data. */
  predicate Messaged(messages: seq<Sse.Emission>, entries: seq<Entry>, show: nat -> string) {
    && |messages| == |entries|
    && forall i :: 0 <= i < |entries| ==> messages[i] == Sse.Emission.Message(show(entries[i].id), entries[i].data)
  }

  lemma {:induction false} MessagesOfShown(entries: seq<Entry>, show: nat -> string)
    ensures Messages(Shown(entries, show)) == Shown(entries, show)
    decreases |entries|
  {
    if entries != [] {
      var init := entries[..|entries| - 1];
      MessagesOfShown(init, show);
      assert Shown(entries, show)[..|entries| - 1] == Shown(init, show);
    }
  }

  lemma RoundMessages(stream: seq<Entry>, start: nat, cursor: nat, emitted: seq<Sse.Emission>, show: nat -> string)
    requires Ascending(stream) && start <= cursor
    requires Messaged(Messages(emitted), Between(stream, start, cursor), show)
    ensures Messaged(Messages(emitted + Round(stream, cursor, show)),
                     Between(stream, start, Advanced(stream, cursor)), show)
  {
    ReadIsBetween(stream, cursor);
    var messages := ReadAfter(stream, cursor);
    CollectConcat(MessageList, emitted, Round(stream, cursor, show));
    if messages == [] {
      CollectOne(MessageList, Sse.KeepAlive);
    } else {
      BetweenJoins(stream, start, cursor, messages[|messages| - 1].id);
      MessagesOfShown(messages, show);
    }
  }

  lemma DataInConcat(a: seq<Entry>, b: seq<Entry>)
    ensures DataIn(a + b) == DataIn(a) + DataIn(b)
  {
  }

  /**
   * The generator: `seen` holds the stream as each read finds it. What it emits carries the data of the
   * entries after its first cursor up to its last one, in order, each once.
   */
  method Events(seen: seq<seq<Entry>>, start: nat, show: nat -> string)
    returns (emitted: seq<Sse.Emission>, cursor: nat)
    requires forall i :: 0 <= i < |seen| ==> Ascending(seen[i])
    requires forall i :: 0 < i < |seen| ==> seen[i - 1] <= seen[i]
    ensures start <= cursor && (cursor > start ==> seen != [] && Holds(seen[|seen| - 1], cursor))
    ensures Sse.DataOf(emitted) == if seen == [] then [] else DataIn(Between(seen[|seen| - 1], start, cursor))
    ensures Messaged(Messages(emitted), if seen == [] then [] else Between(seen[|seen| - 1], start, cursor), show)
  {
    emitted, cursor := [], start;
    ghost var stream: seq<Entry> := [];
    for i := 0 to |seen|
      invariant start <= cursor && (cursor > start ==> Holds(stream, cursor))
                && stream == (if i == 0 then [] else seen[i - 1])
      invariant Sse.DataOf(emitted) == DataIn(Between(stream, start, cursor))
      invariant Messaged(Messages(emitted), Between(stream, start, cursor), show)
    {
      SeenGrows(stream, seen[i], start, cursor);
      RoundMessages(seen[i], start, cursor, emitted, show);
      RoundYields(seen[i], start, cursor, emitted, show);
      stream := seen[i];
      var messages := ReadAfter(seen[i], cursor);
      if messages == [] {
        emitted := emitted + [Sse.KeepAlive];
      } else {
        emitted := emitted + Shown(messages, show);
        cursor := messages[|messages| - 1].id;
      }
    }
  }

  /**
   * A client that reads one connection to the end and then resumes after the last identifier it got has
   * read, over both, exactly the data of the entries from its first cursor to its last.
   */
  lemma ResumingLosesNothing(stream: seq<Entry>, more: seq<Entry>, start: nat, middle: nat, end: nat)
    requires Ascending(stream + more) && start <= middle <= end && (middle > start ==> Holds(stream, middle))
    ensures DataIn(Between(stream, start, middle)) + DataIn(Between(stream + more, middle, end)) ==
            DataIn(Between(stream + more, start, end))
  {
    BetweenGrows(stream, more, start, middle);
    BetweenJoins(stream + more, start, middle, end);
    DataInConcat(Between(stream + more, start, middle), Between(stream + more, middle, end));
  }
}
