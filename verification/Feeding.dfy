/** What the three SOCKS5 byte parsers have in common: a loop that hands bytes to a step function
until the input runs out or a final state is reached. */
module Feeding {

  /** The state reached, and the input left unread. */
  function Feed<S, T>(step: (S, T) -> S, final: S -> bool, s: S, input: seq<T>): (r: (S, seq<T>))
    ensures |r.1| <= |input| && (final(r.0) || r.1 == [])
  {
    if input == [] || final(s) then (s, input)
    else Feed(step, final, step(s, input[0]), input[1..])
  }

  /** What is left unread is the end of the input. */
  lemma {:induction false} FeedLeaves<S, T>(step: (S, T) -> S, final: S -> bool, s: S, input: seq<T>)
    ensures var rest := Feed(step, final, s, input).1; rest == input[|input| - |rest|..]
  {
    if input != [] && !final(s) {
      FeedLeaves(step, final, step(s, input[0]), input[1..]);
    }
  }

  /** Feeding a concatenation is feeding the pieces, with whatever a final state left unread kept. */
  lemma {:induction false} FeedAppend<S, T>(step: (S, T) -> S, final: S -> bool, s: S, a: seq<T>, b: seq<T>)
    ensures var (s1, rest) := Feed(step, final, s, a);
            Feed(step, final, s, a + b) == if final(s1) then (s1, rest + b) else Feed(step, final, s1, b)
  {
    if a == [] {
      assert a + b == b;
    } else if !final(s) {
      assert (a + b)[1..] == a[1..] + b;
      FeedAppend(step, final, step(s, a[0]), a[1..], b);
    }
  }

  /** Reaching a final state from another one takes at least one byte. */
  lemma {:induction false} FeedProgress<S, T>(step: (S, T) -> S, final: S -> bool, s: S, input: seq<T>)
    requires !final(s)
    ensures var (s1, rest) := Feed(step, final, s, input);
            final(s1) ==> |rest| < |input|
  {
    if input != [] {
      var r := Feed(step, final, step(s, input[0]), input[1..]);
    }
  }

  function Flatten<T>(chunks: seq<seq<T>>): (s: seq<T>) {
    if chunks == [] then [] else chunks[0] + Flatten(chunks[1..])
  }

  /** Feeding the results of successive reads, the unread rest carried over in the buffer. */
  function FeedChunks<S, T>(step: (S, T) -> S, final: S -> bool, s: S, chunks: seq<seq<T>>): (r: (S, seq<T>)) {
    if chunks == [] then (s, [])
    else
      var (s1, rest) := Feed(step, final, s, chunks[0]);
      if final(s1) then (s1, rest + Flatten(chunks[1..]))
      else FeedChunks(step, final, s1, chunks[1..])
  }

  /** Segmentation independence: only the concatenation of the reads matters. */
  lemma {:induction false} FeedChunksFlatten<S, T>(step: (S, T) -> S, final: S -> bool, s: S, chunks: seq<seq<T>>)
    ensures FeedChunks(step, final, s, chunks) == Feed(step, final, s, Flatten(chunks))
  {
    if chunks != [] {
      FeedAppend(step, final, s, chunks[0], Flatten(chunks[1..]));
      var (s1, rest) := Feed(step, final, s, chunks[0]);
      FeedChunksFlatten(step, final, s1, chunks[1..]);
    }
  }
}
