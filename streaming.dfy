// The streamed reply of the remote model and the state update applied for
// every chunk (App.tsx, handleSendMessage's `for await` loop).
module Streaming {
  import opened Types

  /** How a stream that did start ends. */
  datatype StreamEnd = Done | Broken

  /**
   * The remote call as seen by the client: `sendMessageStream` either rejects
   * before giving a stream, or gives chunks in arrival order and then either
   * completes or throws.
   */
  datatype Reply = Rejected | Stream(chunks: seq<string>, end: StreamEnd)
  {
    predicate Failed() { Rejected? || end == Broken }
  }

  /** c1 + c2 + ... + ck. */
  function Concat(chunks: seq<string>): string
  {
    if chunks == [] then "" else chunks[0] + Concat(chunks[1..])
  }

  /** Adding one chunk at the end extends the running text by exactly that chunk. */
  lemma {:induction false} ConcatSnoc(chunks: seq<string>, c: string)
    ensures Concat(chunks + [c]) == Concat(chunks) + c
  {
    if chunks == [] {
      assert [c][1..] == [];
    } else {
      assert (chunks + [c])[1..] == chunks[1..] + [c];
      ConcatSnoc(chunks[1..], c);
    }
  }

  /** The text after i chunks is a prefix of the text after j >= i chunks. */
  lemma {:induction false} ConcatPrefix(chunks: seq<string>, i: nat, j: nat)
    requires i <= j <= |chunks|
    ensures Concat(chunks[..i]) <= Concat(chunks[..j])
  {
    if i < j {
      ConcatPrefix(chunks, i, j - 1);
      assert chunks[..j] == chunks[..j - 1] + [chunks[j - 1]];
      ConcatSnoc(chunks[..j - 1], chunks[j - 1]);
    }
  }

  /**
   * The functional update passed to `setMessages` for each chunk: when the last
   * message carries the placeholder id its text becomes `text`, otherwise the
   * list is returned as it is. Reading the last message of an empty list throws
   * in the source, so a non-empty list is required.
   */
  function UpdateLast(prev: seq<Message>, placeholderId: string, text: string): (r: seq<Message>)
    requires |prev| > 0
    ensures |r| == |prev|
    ensures r[..|r| - 1] == prev[..|prev| - 1]
    ensures r[|r| - 1].id == prev[|prev| - 1].id && r[|r| - 1].sender == prev[|prev| - 1].sender
    ensures r[|r| - 1].text == (if prev[|prev| - 1].id == placeholderId then text else prev[|prev| - 1].text)
  {
    var last := prev[|prev| - 1];
    if last.id == placeholderId then prev[..|prev| - 1] + [last.(text := text)] else prev
  }

  /** When the id does not match, the updater changes nothing. */
  lemma UpdateLastMismatch(prev: seq<Message>, placeholderId: string, text: string)
    requires |prev| > 0 && prev[|prev| - 1].id != placeholderId
    ensures UpdateLast(prev, placeholderId, text) == prev
  {
  }

  /** Two updates in a row leave only the second text: each chunk overwrites the running text. */
  lemma UpdateLastOverwrites(prev: seq<Message>, placeholderId: string, t1: string, t2: string)
    requires |prev| > 0
    ensures UpdateLast(UpdateLast(prev, placeholderId, t1), placeholderId, t2)
         == UpdateLast(prev, placeholderId, t2)
  {
    var r1 := UpdateLast(prev, placeholderId, t1);
    var r2 := UpdateLast(r1, placeholderId, t2);
    var r := UpdateLast(prev, placeholderId, t2);
    assert r2[..|r2| - 1] == r[..|r| - 1];
    assert r2 == r2[..|r2| - 1] + [r2[|r2| - 1]];
    assert r == r[..|r| - 1] + [r[|r| - 1]];
  }

  /**
   * The message list once k chunks have arrived: the messages before the
   * placeholder, then the placeholder holding the first k chunks.
   */
  function AfterChunks(earlier: seq<Message>, placeholderId: string, chunks: seq<string>, k: nat): seq<Message>
    requires k <= |chunks|
  {
    earlier + [Message(placeholderId, Concat(chunks[..k]), AI)]
  }

  /**
   * Applying the updater with the running text of k + 1 chunks to the list
   * after k chunks gives the list after k + 1 chunks: only the placeholder
   * changes, and it gains exactly the next chunk.
   */
  lemma {:induction false} AfterChunksStep(earlier: seq<Message>, placeholderId: string, chunks: seq<string>, k: nat)
    requires k < |chunks|
    ensures Concat(chunks[..k + 1]) == Concat(chunks[..k]) + chunks[k]
    ensures UpdateLast(AfterChunks(earlier, placeholderId, chunks, k), placeholderId, Concat(chunks[..k]) + chunks[k])
         == AfterChunks(earlier, placeholderId, chunks, k + 1)
  {
    assert chunks[..k + 1] == chunks[..k] + [chunks[k]];
    ConcatSnoc(chunks[..k], chunks[k]);
    var prev := AfterChunks(earlier, placeholderId, chunks, k);
    var r := UpdateLast(prev, placeholderId, Concat(chunks[..k]) + chunks[k]);
    assert r == r[..|r| - 1] + [r[|r| - 1]];
    assert prev[..|prev| - 1] == earlier;
  }
}
