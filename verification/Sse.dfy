/** Decoding a provider's event stream: a resumable decoder against the flat list it must deliver. */
module Sse {
  import opened Wrappers
  import opened AgentTypes

  datatype StreamError =
    | StreamCancelled
    | ResponseTooLarge(limit: word)
    | BadFraming(reason: string)
    | Reported(reason: string)

  /** What polling the framed source yields. */
  datatype SourceItem<+E> =
    | Event(event: E)
    | Transport(error: StreamError)
    | Framing(reason: string)

  type Item = Result<ProviderEvent, StreamError>
  type Batch = Result<seq<ProviderEvent>, StreamError>

  /** The provider's assembler: its state is a value and its two calls are total. */
  datatype Assembler<!A, !E> = Assembler(push: (A, E) -> (A, Batch), finish: A -> Batch)

  /** `cut(k)`: the k-th wait on the source resolved to cancellation instead. */
  type Cuts = nat -> bool

  function Oks(events: seq<ProviderEvent>): (items: seq<Item>)
    ensures |items| == |events| && forall i :: 0 <= i < |items| ==> items[i] == Ok(events[i])
  {
    seq(|events|, i requires 0 <= i < |events| => Ok(events[i]))
  }

  // ---------------------------------------------------------------- what must come out

  /** The assembler after a run of events, and everything it returned for them. */
  function Folded<A, E>(asm: Assembler<A, E>, a: A, events: seq<SourceItem<E>>): (r: (A, seq<ProviderEvent>))
  {
    if events == [] then (a, [])
    else
      var (before, out) := Folded(asm, a, events[..|events| - 1]);
      var last := events[|events| - 1];
      if last.Event? then
        var (after, batch) := asm.push(before, last.event);
        (after, out + (if batch.Ok? then batch.value else []))
      else (before, out)
  }

  /** Item n ends the stream: a cancelled wait, the end of the source, a source error or a refused event. */
  predicate StopsAt<A, E>(asm: Assembler<A, E>, a: A, source: seq<SourceItem<E>>, cut: Cuts, n: nat)
    requires n <= |source|
  {
    cut(n) || n == |source| || !source[n].Event? || asm.push(Folded(asm, a, source[..n]).0, source[n].event).1.Err?
  }

  /** The first such item. */
  function StopFrom<A, E>(asm: Assembler<A, E>, a: A, source: seq<SourceItem<E>>, cut: Cuts, from: nat): (n: nat)
    requires from <= |source|
    ensures from <= n <= |source| && StopsAt(asm, a, source, cut, n)
    ensures forall k :: from <= k < n ==> !StopsAt(asm, a, source, cut, k)
    decreases |source| - from
  {
    if StopsAt(asm, a, source, cut, from) then from else StopFrom(asm, a, source, cut, from + 1)
  }

  function BatchItems(batch: Batch): seq<Item> {
    if batch.Ok? then Oks(batch.value) else [Err(batch.error)]
  }

  /** The last words of a stream that stops at item n. */
  function Ending<A, E>(asm: Assembler<A, E>, a: A, source: seq<SourceItem<E>>, cut: Cuts, n: nat): seq<Item>
    requires n <= |source| && StopsAt(asm, a, source, cut, n)
  {
    var state := Folded(asm, a, source[..n]).0;
    if cut(n) then [Err(StreamCancelled)]
    else if n == |source| then BatchItems(asm.finish(state))
    else match source[n]
      case Event(event) => BatchItems(asm.push(state, event).1)
      case Transport(error) => [Err(error)]
      case Framing(reason) => [Err(BadFraming(reason))]
  }

  /** The whole stream: all the assembler returned for the items before the stop, and then the ending. */
  function Decoded<A, E>(asm: Assembler<A, E>, a: A, source: seq<SourceItem<E>>, cut: Cuts): seq<Item> {
    var n := StopFrom(asm, a, source, cut, 0);
    Oks(Folded(asm, a, source[..n]).1) + Ending(asm, a, source, cut, n)
  }

  /** What is still to come once the items before `from` are delivered. */
  function Later<A, E>(asm: Assembler<A, E>, a: A, source: seq<SourceItem<E>>, cut: Cuts, from: nat): seq<Item>
    requires from <= |source|
    decreases |source| - from
  {
    if StopsAt(asm, a, source, cut, from) then Ending(asm, a, source, cut, from)
    else
      var batch := asm.push(Folded(asm, a, source[..from]).0, source[from].event).1;
      Oks(batch.value) + Later(asm, a, source, cut, from + 1)
  }

  // ---------------------------------------------------------------- the decoder

  class Decoder<A(!new), E(!new)> {
    const asm: Assembler<A, E>
    const cut: Cuts
    var source: seq<SourceItem<E>>
    var assembler: A
    var pending: seq<Item>
    var done: bool
    var waits: nat

    /** The source and the assembler as they were handed over, and how often `finish` has been called. */
    ghost const given: seq<SourceItem<E>>
    ghost const initial: A
    ghost var finishes: nat

    ghost predicate Valid()
      reads this
    {
      && waits <= |given|
      && (!done ==> source == given[waits..] && assembler == Folded(asm, initial, given[..waits]).0)
      && finishes <= 1
      && (finishes == 1 ==> done && source == [] && waits == |given|)
    }

    ghost function Remaining(): seq<Item>
      requires Valid()
      reads this
    {
      pending + if done then [] else Later(asm, initial, given, cut, waits)
    }

    constructor (source: seq<SourceItem<E>>, assembler: A, asm: Assembler<A, E>, cut: Cuts)
      ensures Valid() && finishes == 0
      ensures Remaining() == Decoded(asm, assembler, source, cut)
    {
      this.source, this.assembler, this.asm, this.cut := source, assembler, asm, cut;
      pending, done, waits := [], false, 0;
      given, initial, finishes := source, assembler, 0;
      new;
      assert source[..0] == [] && source[0..] == source;
      LaterIsDecoded(asm, assembler, source, cut);
    }

    /** One poll: the next item of the flat list and nothing else. */
    method Next() returns (r: Option<Item>)
      requires Valid()
      modifies this
      ensures Valid() && old(finishes) <= finishes <= 1
      ensures finishes == 1 ==> done && waits == |given|
      ensures r == if old(Remaining()) == [] then None else Some(old(Remaining())[0])
      ensures Remaining() == if old(Remaining()) == [] then [] else old(Remaining())[1..]
    {
      hide Folded, StopsAt, Ending, Later, Oks, StopFrom, Decoded;
      while true
        invariant Valid() && finishes >= old(finishes)
        invariant Remaining() == old(Remaining())
        decreases !done, |source|, |pending|
      {
        if pending != [] {
          var item := pending[0];
          pending := pending[1..];
          return Some(item);
        }
        if done {
          return None;
        }
        LaterStep(asm, initial, given, cut, waits);
        if cut(waits) {
          done := true;
          return Some(Err(StreamCancelled));
        }
        if source == [] {
          done := true;
          finishes := finishes + 1;
          var batch := asm.finish(assembler);
          if batch.Err? { return Some(Err(batch.error)); }
          pending := Oks(batch.value);
        } else {
          var next := source[0];
          source := source[1..];
          FoldedStep(asm, initial, given, waits);
          waits := waits + 1;
          match next
          case Event(event) =>
            var (after, batch) := asm.push(assembler, event);
            assembler := after;
            if batch.Err? {
              done := true;
              return Some(Err(batch.error));
            }
            pending := Oks(batch.value);
          case Transport(error) =>
            done := true;
            return Some(Err(error));
          case Framing(reason) =>
            done := true;
            return Some(Err(BadFraming(reason)));
        }
      }
    }
  }

  lemma {:induction false} LaterStep<A, E>(asm: Assembler<A, E>, a: A, source: seq<SourceItem<E>>, cut: Cuts, from: nat)
    requires from <= |source|
    ensures var state := Folded(asm, a, source[..from]).0;
            Later(asm, a, source, cut, from) ==
            if cut(from) then [Err(StreamCancelled)]
            else if from == |source| then BatchItems(asm.finish(state))
            else match source[from]
              case Event(event) =>
                var batch := asm.push(state, event).1;
                BatchItems(batch) + (if batch.Ok? then Later(asm, a, source, cut, from + 1) else [])
              case Transport(error) => [Err(error)]
              case Framing(reason) => [Err(BadFraming(reason))]
  {
    hide Folded;
  }

  lemma {:induction false} FoldedStep<A, E>(asm: Assembler<A, E>, a: A, source: seq<SourceItem<E>>, n: nat)
    requires n < |source|
    ensures var (state, out) := Folded(asm, a, source[..n]);
            source[n].Event? ==>
              var (after, batch) := asm.push(state, source[n].event);
              Folded(asm, a, source[..n + 1]) == (after, out + (if batch.Ok? then batch.value else []))
  {
    assert source[..n + 1][..n] == source[..n];
  }

  lemma {:induction false} LaterIsDecoded<A, E>(asm: Assembler<A, E>, a: A, source: seq<SourceItem<E>>, cut: Cuts)
    ensures Later(asm, a, source, cut, 0) == Decoded(asm, a, source, cut)
  {
    LaterFrom(asm, a, source, cut, 0);
    assert source[..0] == [];
    assert Oks([]) == [];
  }

  lemma {:induction false} LaterFrom<A, E>(asm: Assembler<A, E>, a: A, source: seq<SourceItem<E>>, cut: Cuts, from: nat)
    requires from <= |source|
    ensures var n := StopFrom(asm, a, source, cut, from);
            Oks(Folded(asm, a, source[..from]).1) + Later(asm, a, source, cut, from) ==
            Oks(Folded(asm, a, source[..n]).1) + Ending(asm, a, source, cut, n)
    decreases |source| - from
  {
    hide Folded, Ending;
    if !StopsAt(asm, a, source, cut, from) {
      LaterFrom(asm, a, source, cut, from + 1);
      FoldedStep(asm, a, source, from);
      var (state, out) := Folded(asm, a, source[..from]);
      var batch := asm.push(state, source[from].event).1;
      assert Oks(out + batch.value) == Oks(out) + Oks(batch.value);
    }
  }

  /** The items up to n go through: no wait is cut, and the assembler takes every event. */
  ghost predicate GoesOn<A, E>(asm: Assembler<A, E>, a: A, source: seq<SourceItem<E>>, cut: Cuts, n: nat)
    requires n <= |source|
  {
    forall k :: 0 <= k < n ==>
      !cut(k) && source[k].Event? && asm.push(Folded(asm, a, source[..k]).0, source[k].event).1.Ok?
  }

  /** What a stream delivers, in plain terms: all that the assembler returned for the items that went through, and
      then what the item that stops it gives. A refusal ends it with the assembler's own error. */
  lemma {:induction false} DecodedInPlainTerms<A, E>(asm: Assembler<A, E>, a: A, source: seq<SourceItem<E>>, cut: Cuts,
                                                     n: nat)
    requires n <= |source| && GoesOn(asm, a, source, cut, n)
    ensures var (state, out) := Folded(asm, a, source[..n]);
            var all := Decoded(asm, a, source, cut);
            if cut(n) then all == Oks(out) + [Err(StreamCancelled)]
            else if n == |source| then
              match asm.finish(state)
              case Ok(more) => all == Oks(out) + Oks(more)
              case Err(error) => all == Oks(out) + [Err(error)]
            else
              match source[n]
              case Event(event) =>
                asm.push(state, event).1.Err? ==> all == Oks(out) + [Err(asm.push(state, event).1.error)]
              case Transport(error) => all == Oks(out) + [Err(error)]
              case Framing(reason) => all == Oks(out) + [Err(BadFraming(reason))]
  {
    hide Folded;
    forall k | 0 <= k < n
      ensures !StopsAt(asm, a, source, cut, k)
    {
    }
    if StopsAt(asm, a, source, cut, n) {
      var m := StopFrom(asm, a, source, cut, 0);
      assert !(m < n) && !(n < m);
    }
  }

  /** The stream says that it was cancelled only if a wait was cut, or if the assembler or the transport said so. */
  lemma {:induction false} CancelledMeansCut<A, E>(asm: Assembler<A, E>, a: A, source: seq<SourceItem<E>>, cut: Cuts)
    ensures var all := Decoded(asm, a, source, cut);
            all != [] && all[|all| - 1] == Err(StreamCancelled) ==>
              || (exists k: nat :: k <= |source| && cut(k))
              || (exists state, event :: asm.push(state, event).1 == Err(StreamCancelled))
              || (exists state :: asm.finish(state) == Err(StreamCancelled))
              || (exists k :: 0 <= k < |source| && source[k] == Transport(StreamCancelled))
  {
    hide Folded;
    var n := StopFrom(asm, a, source, cut, 0);
    var (state, out) := Folded(asm, a, source[..n]);
    var all, ending := Decoded(asm, a, source, cut), Ending(asm, a, source, cut, n);
    assert all == Oks(out) + ending;
    if all != [] && all[|all| - 1] == Err(StreamCancelled) && !cut(n) {
      assert ending != [] && ending[|ending| - 1] == Err(StreamCancelled);
      if n == |source| {
        assert asm.finish(state) == Err(StreamCancelled);
      } else if source[n].Event? {
        assert asm.push(state, source[n].event).1 == Err(StreamCancelled);
      } else {
        assert source[n] == Transport(StreamCancelled);
      }
    }
  }

  /** What the assembler has returned after one more event. */
  lemma {:induction false} FoldedLaws<A, E>(asm: Assembler<A, E>, a: A, events: seq<SourceItem<E>>, e: E)
    ensures Folded(asm, a, []) == (a, [])
    ensures var (state, out) := Folded(asm, a, events);
            var (after, batch) := asm.push(state, e);
            Folded(asm, a, events + [Event(e)]) == (after, match batch case Ok(more) => out + more case Err(_) => out)
  {
    var all := events + [Event(e)];
    assert all[..|events|] == events;
    var (state, out) := Folded(asm, a, events);
    assert out + [] == out;
  }

  /** At most one error, and nothing after it. */
  lemma {:induction false} OnlyTheLastIsAnError<A, E>(asm: Assembler<A, E>, a: A, source: seq<SourceItem<E>>, cut: Cuts)
    ensures var items := Decoded(asm, a, source, cut);
            forall i :: 0 <= i < |items| && items[i].Err? ==> i == |items| - 1
  {
    hide Folded, StopsAt;
    var n := StopFrom(asm, a, source, cut, 0);
    var head := Oks(Folded(asm, a, source[..n]).1);
    EndingErrs(asm, a, source, cut, n);
    assert forall i :: 0 <= i < |head| ==> head[i].Ok?;
  }

  lemma {:induction false} EndingErrs<A, E>(asm: Assembler<A, E>, a: A, source: seq<SourceItem<E>>, cut: Cuts, n: nat)
    requires n <= |source| && StopsAt(asm, a, source, cut, n)
    ensures var e := Ending(asm, a, source, cut, n);
            (forall i :: 0 <= i < |e| ==> e[i].Ok?) || (|e| == 1 && e[0].Err?)
  {
    hide Folded;
  }

  /** A stream without an error is complete: every source event was pushed and accepted, in order, and the
      output is all that `push` returned and then all that `finish` returned. */
  lemma {:induction false} NoErrorMeansComplete<A, E>(asm: Assembler<A, E>, a: A, source: seq<SourceItem<E>>, cut: Cuts)
    requires forall i :: 0 <= i < |Decoded(asm, a, source, cut)| ==> Decoded(asm, a, source, cut)[i].Ok?
    ensures forall k :: 0 <= k < |source| ==> source[k].Event? && !StopsAt(asm, a, source, cut, k)
    ensures var (state, out) := Folded(asm, a, source);
            asm.finish(state).Ok? && Decoded(asm, a, source, cut) == Oks(out + asm.finish(state).value)
  {
    hide Folded;
    var n := StopFrom(asm, a, source, cut, 0);
    var head := Oks(Folded(asm, a, source[..n]).1);
    var ending := Ending(asm, a, source, cut, n);
    var items := Decoded(asm, a, source, cut);
    assert ending != [] ==> items[|head|] == ending[0];
    assert n == |source| && source[..n] == source;
    forall k | 0 <= k < |source|
      ensures source[k].Event? && !StopsAt(asm, a, source, cut, k)
    {
      assert !StopsAt(asm, a, source, cut, k);
    }
    var (state, out) := Folded(asm, a, source);
    assert Oks(out + asm.finish(state).value) == Oks(out) + Oks(asm.finish(state).value);
  }

  lemma {:induction false} Delivered(items: seq<Item>, rest: seq<Item>)
    requires rest != []
    ensures (items + [rest[0]]) + rest[1..] == items + rest
  {
  }

  /** Polling to the end delivers the flat list. */
  method Collect<A(!new), E(!new)>(source: seq<SourceItem<E>>, assembler: A, asm: Assembler<A, E>, cut: Cuts)
    returns (items: seq<Item>)
    ensures items == Decoded(asm, assembler, source, cut)
  {
    hide *;
    var decoder := new Decoder(source, assembler, asm, cut);
    ghost var all := decoder.Remaining();
    items := [];
    while true
      invariant decoder.Valid() && fresh(decoder)
      invariant items + decoder.Remaining() == all
      decreases |decoder.Remaining()|
    {
      ghost var rest := decoder.Remaining();
      var r := decoder.Next();
      if r.None? { break; }
      Delivered(items, rest);
      items := items + [r.value];
    }
  }

  // ---------------------------------------------------------------- the byte limit

  datatype Chunk = Bytes(size: nat) | Broken(error: StreamError)

  function Total(chunks: seq<Chunk>): nat {
    if chunks == [] then 0
    else Total(chunks[..|chunks| - 1]) + (var c := chunks[|chunks| - 1]; if c.Bytes? then c.size else 0)
  }

  ghost predicate Fits(chunks: seq<Chunk>, limit: word) {
    (forall i :: 0 <= i < |chunks| ==> chunks[i].Bytes?) && Total(chunks) <= limit
  }

  /** The longest prefix that is all bytes and within the limit. */
  ghost function LongestFit(chunks: seq<Chunk>, limit: word): (n: nat)
    ensures n <= |chunks| && Fits(chunks[..n], limit)
    ensures forall k :: n < k <= |chunks| ==> !Fits(chunks[..k], limit)
    decreases |chunks|
  {
    if Fits(chunks, limit) then
      assert chunks[..|chunks|] == chunks;
      |chunks|
    else
      var front := chunks[..|chunks| - 1];
      assert forall k :: 0 <= k <= |front| ==> front[..k] == chunks[..k];
      assert chunks[..|chunks|] == chunks;
      LongestFit(front, limit)
  }

  /** `limit_response_bytes`: the chunks that fit, then one error if any were cut off. */
  method LimitResponse(chunks: seq<Chunk>, limit: word) returns (out: seq<Chunk>)
    ensures var n := LongestFit(chunks, limit);
            out == chunks[..n] + (if n == |chunks| then []
                                  else if chunks[n].Broken? then [chunks[n]]
                                  else [Broken(ResponseTooLarge(limit))])
  {
    out := [];
    var total: word, stopped := 0, false;
    var next := 0;
    while next < |chunks| && !stopped
      invariant next <= |chunks|
      invariant !stopped ==> out == chunks[..next] && total == Total(chunks[..next]) && Fits(chunks[..next], limit)
      invariant stopped ==> next > 0 && Fits(chunks[..next - 1], limit) && !Fits(chunks[..next], limit)
      invariant stopped ==> out == chunks[..next - 1] + [if chunks[next - 1].Broken? then chunks[next - 1]
                                                         else Broken(ResponseTooLarge(limit))]
      decreases |chunks| - next
    {
      var item := chunks[next];
      FitsStep(chunks, next, limit);
      match item {
        case Bytes(size) =>
          if total + size <= WORD_MAX && total + size <= limit {
            total := total + size;
            out := out + [item];
          } else {
            stopped := true;
            out := out + [Broken(ResponseTooLarge(limit))];
          }
        case Broken(_) =>
          stopped := true;
          out := out + [item];
      }
      next := next + 1;
    }
    LongestFitUnique(chunks, limit, if stopped then next - 1 else next);
  }

  lemma {:induction false} FitsStep(chunks: seq<Chunk>, n: nat, limit: word)
    requires n < |chunks|
    ensures Fits(chunks[..n + 1], limit) <==>
            Fits(chunks[..n], limit) && chunks[n].Bytes? && Total(chunks[..n]) + chunks[n].size <= limit
    ensures chunks[n].Bytes? ==> Total(chunks[..n + 1]) == Total(chunks[..n]) + chunks[n].size
  {
    var longer := chunks[..n + 1];
    assert longer[..n] == chunks[..n] && longer[n] == chunks[n];
    assert Total(longer) >= Total(chunks[..n]);
    if Fits(longer, limit) {
      assert forall i :: 0 <= i < n ==> chunks[..n][i] == longer[i];
    }
  }

  lemma {:induction false} TotalLaws(chunks: seq<Chunk>, n: nat)
    ensures Total([]) == 0 && Total(chunks + [Bytes(n)]) == Total(chunks) + n
  {
    assert (chunks + [Bytes(n)])[..|chunks|] == chunks;
  }

  /** A prefix that fits and cannot grow by one is the longest. */
  lemma {:induction false} LongestFitUnique(chunks: seq<Chunk>, limit: word, n: nat)
    requires n <= |chunks| && Fits(chunks[..n], limit) && (n < |chunks| ==> !Fits(chunks[..n + 1], limit))
    ensures LongestFit(chunks, limit) == n
  {
    hide Fits, Total;
    var m := LongestFit(chunks, limit);
    if m > n { FitsShorter(chunks, limit, n + 1, m); }
  }

  lemma {:induction false} FitsShorter(chunks: seq<Chunk>, limit: word, k: nat, n: nat)
    requires k <= n <= |chunks| && Fits(chunks[..n], limit)
    ensures Fits(chunks[..k], limit)
    decreases n - k
  {
    hide Fits, Total;
    if k < n {
      FitsStep(chunks, n - 1, limit);
      FitsShorter(chunks, limit, k, n - 1);
    }
  }
}
