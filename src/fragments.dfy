/** The fan-out over the CSS fragments of one HTML document: every text node
    inside a `<style>` element, then every `style` attribute, is handed to
    the same PostCSS processor; each result is written back into the node it
    came from; `Promise.all` joins them. */
module Fragments {
  import opened JsValues
  import opened Collaborators

  /** A handle on one fragment of a document: the i-th style-block text node
      or the j-th element carrying a `style` attribute. */
  datatype Slot = Block(i: nat) | Attr(j: nat)

  /** The parsed document, whose fragment slots are overwritten in place. */
  class Document {
    const skeleton: Skeleton
    var blocks: seq<string>
    var attrs: seq<string>

    constructor Load(m: Markup)
      ensures skeleton == m.skeleton && blocks == m.blocks && attrs == m.attrs
    {
      skeleton := m.skeleton;
      blocks := m.blocks;
      attrs := m.attrs;
    }

    /** The fragment texts in processing order: style blocks, then attributes. */
    function Texts(): seq<string>
      reads this
    {
      blocks + attrs
    }

    function Size(): nat
      reads this
    {
      |blocks| + |attrs|
    }

    predicate Owns(s: Slot)
      reads this
    {
      match s
      case Block(i) => i < |blocks|
      case Attr(j) => j < |attrs|
    }

    /** Where a slot's fragment sits in `Texts()`. */
    function Position(s: Slot): (k: nat)
      requires Owns(s)
      reads this
      ensures k < Size()
    {
      match s
      case Block(i) => i
      case Attr(j) => |blocks| + j
    }

    /** The slot whose fragment sits at position k of `Texts()`. */
    function SlotAt(k: nat): (s: Slot)
      requires k < Size()
      reads this
      ensures Owns(s) && Position(s) == k
    {
      if k < |blocks| then Block(k) else Attr(k - |blocks|)
    }

    /** `style.data = css` or `element.attribs.style = css`. */
    method Write(s: Slot, css: string)
      requires Owns(s)
      modifies this
      ensures |blocks| == old(|blocks|) && |attrs| == old(|attrs|)
      ensures Texts() == old(Texts())[old(Position(s)) := css]
    {
      match s
      case Block(i) => blocks := blocks[i := css];
      case Attr(j) => attrs := attrs[j := css];
    }

    /** `$.html()`. */
    function Html(serialize: (Skeleton, seq<string>, seq<string>) -> string): string
      reads this
    {
      serialize(skeleton, blocks, attrs)
    }
  }

  /** An order in which the fragments' promises settle: every fragment index
      occurs, and only fragment indices. */
  predicate IsCompletionOrder(order: seq<nat>, n: nat) {
    && |order| == n
    && (forall t :: 0 <= t < |order| ==> order[t] < n)
    && (forall k :: 0 <= k < n ==> k in order)
  }

  function Range(n: nat): (order: seq<nat>)
    ensures IsCompletionOrder(order, n)
    ensures forall t :: 0 <= t < n ==> order[t] == t
  {
    var order := seq(n, t => t);
    forall k | 0 <= k < n ensures k in order {
      assert order[k] == k;
    }
    order
  }

  /** Every fragment's outcome, in processing order. */
  function Outcomes(host: Host, proc: Processor, texts: seq<string>, opts: map<string, JsValue>)
    : seq<Result<CssResult>>
  {
    seq(|texts|, k requires 0 <= k < |texts| => host.process(proc, texts[k], opts))
  }

  /** The first rejection, in completion order. */
  function FirstFailure(order: seq<nat>, outs: seq<Result<CssResult>>): Option<JsError>
    requires forall t :: 0 <= t < |order| ==> order[t] < |outs|
  {
    if |order| == 0 then None
    else
      match FirstFailure(order[..|order| - 1], outs)
      case Some(e) => Some(e)
      case None => if outs[order[|order| - 1]].Err? then Some(outs[order[|order| - 1]].error) else None
  }

  /** A reported failure is the failure of a fragment that settled. */
  lemma {:induction false} FirstFailureSound(order: seq<nat>, outs: seq<Result<CssResult>>)
    requires forall t :: 0 <= t < |order| ==> order[t] < |outs|
    ensures FirstFailure(order, outs).Some? ==>
              exists t :: 0 <= t < |order| && outs[order[t]] == Err(FirstFailure(order, outs).value)
  {
    if |order| > 0 {
      var front := order[..|order| - 1];
      FirstFailureSound(front, outs);
      if FirstFailure(front, outs).Some? {
        var t :| 0 <= t < |front| && outs[front[t]] == Err(FirstFailure(front, outs).value);
        assert order[t] == front[t];
      } else if outs[order[|order| - 1]].Err? {
        assert outs[order[|order| - 1]] == Err(FirstFailure(order, outs).value);
      }
    }
  }

  /** No failure is reported exactly when every fragment that settled
      succeeded. */
  lemma {:induction false} FirstFailureComplete(order: seq<nat>, outs: seq<Result<CssResult>>)
    requires forall t :: 0 <= t < |order| ==> order[t] < |outs|
    ensures FirstFailure(order, outs).None? <==> forall t :: 0 <= t < |order| ==> outs[order[t]].Ok?
  {
    if |order| > 0 {
      var front := order[..|order| - 1];
      FirstFailureComplete(front, outs);
      assert forall t :: 0 <= t < |front| ==> front[t] == order[t];
    }
  }

  /** When every promise that settled succeeded, every fragment succeeded. */
  lemma AllSettledOk(order: seq<nat>, outs: seq<Result<CssResult>>)
    requires IsCompletionOrder(order, |outs|)
    requires forall t :: 0 <= t < |order| ==> outs[order[t]].Ok?
    ensures forall k :: 0 <= k < |outs| ==> outs[k].Ok?
  {
    forall k | 0 <= k < |outs| ensures outs[k].Ok? {
      assert k in order;
      var t :| 0 <= t < |order| && order[t] == k;
    }
  }

  /** `Promise.all` over the fragments' outcomes, given the order in which
      they settle. */
  function Joined(order: seq<nat>, outs: seq<Result<CssResult>>): (r: Result<seq<CssResult>>)
    requires IsCompletionOrder(order, |outs|)
    ensures r.Ok? <==> forall k :: 0 <= k < |outs| ==> outs[k].Ok?
    ensures r.Ok? ==> |r.value| == |outs| && forall k :: 0 <= k < |outs| ==> outs[k] == Ok(r.value[k])
    ensures r.Err? ==> exists k :: 0 <= k < |outs| && outs[k] == Err(r.error)
  {
    FirstFailureComplete(order, outs);
    match FirstFailure(order, outs)
    case Some(e) =>
      FirstFailureSound(order, outs);
      Err(e)
    case None =>
      AllSettledOk(order, outs);
      Ok(seq(|outs|, k requires 0 <= k < |outs| => outs[k].value))
  }

  /** When the promises settle in fragment order, the reported failure is the
      lowest-index one. */
  lemma {:induction false} InOrderCompletionReportsLowestFailure(outs: seq<Result<CssResult>>, k: nat)
    requires k < |outs| && outs[k].Err?
    requires forall j :: 0 <= j < k ==> outs[j].Ok?
    ensures Joined(Range(|outs|), outs) == Err(outs[k].error)
  {
    PrefixFirstFailure(outs, |outs|, k);
    assert Range(|outs|)[..|outs|] == Range(|outs|);
  }

  lemma {:induction false} PrefixFirstFailure(outs: seq<Result<CssResult>>, n: nat, k: nat)
    requires k < n <= |outs| && outs[k].Err?
    requires forall j :: 0 <= j < k ==> outs[j].Ok?
    ensures FirstFailure(Range(|outs|)[..n], outs) == Some(outs[k].error)
    decreases n
  {
    var order := Range(|outs|);
    assert order[..n][..n - 1] == order[..n - 1];
    if n - 1 > k {
      PrefixFirstFailure(outs, n - 1, k);
    } else {
      FirstFailureComplete(order[..n - 1], outs);
    }
  }

  /** The fragment texts after every successful result has been written back
      over the fragment it came from. */
  function WrittenBack(texts: seq<string>, outs: seq<Result<CssResult>>): (r: seq<string>)
    requires |outs| == |texts|
  {
    seq(|texts|, k requires 0 <= k < |texts| => if outs[k].Ok? then outs[k].value.css else texts[k])
  }

  /** The fragment texts after the promises in `settled` have settled, in
      that order: each success overwrites its own fragment. */
  function Settled(texts: seq<string>, outs: seq<Result<CssResult>>, settled: seq<nat>): (r: seq<string>)
    requires |outs| == |texts|
    requires forall s :: 0 <= s < |settled| ==> settled[s] < |texts|
    ensures |r| == |texts|
  {
    if |settled| == 0 then texts
    else
      var k := settled[|settled| - 1];
      var before := Settled(texts, outs, settled[..|settled| - 1]);
      if outs[k].Ok? then before[k := outs[k].value.css] else before
  }

  /** A fragment holds its result once its promise has settled successfully,
      and its original text otherwise. */
  lemma {:induction false} SettledAt(texts: seq<string>, outs: seq<Result<CssResult>>, settled: seq<nat>, k: nat)
    requires |outs| == |texts| && k < |texts|
    requires forall s :: 0 <= s < |settled| ==> settled[s] < |texts|
    ensures Settled(texts, outs, settled)[k] == if k in settled && outs[k].Ok? then outs[k].value.css else texts[k]
  {
    if |settled| > 0 {
      var front := settled[..|settled| - 1];
      SettledAt(texts, outs, front, k);
      assert settled == front + [settled[|settled| - 1]];
      assert k in settled <==> k in front || k == settled[|settled| - 1];
    }
  }

  /** The written-back texts do not depend on the order in which the
      promises settle. */
  lemma SettledInAnyOrder(texts: seq<string>, outs: seq<Result<CssResult>>, order: seq<nat>)
    requires |outs| == |texts| && IsCompletionOrder(order, |texts|)
    ensures Settled(texts, outs, order) == WrittenBack(texts, outs)
  {
    forall k | 0 <= k < |texts| ensures Settled(texts, outs, order)[k] == WrittenBack(texts, outs)[k] {
      SettledAt(texts, outs, order, k);
    }
  }

  /** index.js:134-150: one promise per fragment, created from the fragment's
      current text, style blocks first and then style attributes; each is
      tied to the slot its result will be written back to. */
  method Launch(doc: Document, host: Host, proc: Processor, opts: map<string, JsValue>)
    returns (slots: seq<Slot>, pending: seq<Result<CssResult>>)
    ensures pending == Outcomes(host, proc, doc.Texts(), opts)
    ensures |slots| == doc.Size() && forall k :: 0 <= k < |slots| ==> slots[k] == doc.SlotAt(k)
  {
    ghost var outs := Outcomes(host, proc, doc.Texts(), opts);
    slots, pending := [], [];
    var i := 0;
    while i < |doc.blocks|
      invariant 0 <= i <= |doc.blocks|
      invariant |slots| == |pending| == i
      invariant forall k :: 0 <= k < i ==> slots[k] == Block(k) && pending[k] == outs[k]
    {
      slots := slots + [Block(i)];
      pending := pending + [host.process(proc, doc.blocks[i], opts)];
      i := i + 1;
    }
    var j := 0;
    while j < |doc.attrs|
      invariant 0 <= j <= |doc.attrs|
      invariant |slots| == |pending| == |doc.blocks| + j
      invariant forall k :: 0 <= k < |pending| ==> pending[k] == outs[k]
      invariant forall k :: 0 <= k < |slots| ==> slots[k] == doc.SlotAt(k)
    {
      assert doc.Texts()[|doc.blocks| + j] == doc.attrs[j];
      slots := slots + [Attr(j)];
      pending := pending + [host.process(proc, doc.attrs[j], opts)];
      j := j + 1;
    }
  }

  /** index.js:130-152. As each promise settles, a success overwrites its own
      slot; `Promise.all` rejects with the first failure to settle, or
      resolves with every result in fragment order. The written-back texts do
      not depend on the order in which the promises settle. */
  method FanOut(doc: Document, host: Host, proc: Processor, opts: map<string, JsValue>, order: seq<nat>)
    returns (r: Result<seq<CssResult>>)
    requires IsCompletionOrder(order, doc.Size())
    modifies doc
    ensures |doc.blocks| == old(|doc.blocks|) && |doc.attrs| == old(|doc.attrs|)
    ensures doc.Texts() == WrittenBack(old(doc.Texts()), Outcomes(host, proc, old(doc.Texts()), opts))
    ensures r == Joined(order, Outcomes(host, proc, old(doc.Texts()), opts))
  {
    ghost var texts := doc.Texts();
    var slots, pending := Launch(doc, host, proc, opts);
    ghost var outs := pending;
    var failure: Option<JsError> := None;
    var t := 0;
    while t < |order|
      invariant 0 <= t <= |order|
      invariant |doc.blocks| == old(|doc.blocks|) && |doc.attrs| == old(|doc.attrs|)
      invariant forall k :: 0 <= k < |slots| ==> slots[k] == doc.SlotAt(k)
      invariant failure == FirstFailure(order[..t], outs)
      invariant doc.Texts() == Settled(texts, outs, order[..t])
    {
      var k := order[t];
      assert order[..t + 1][..t] == order[..t];
      match pending[k] {
        case Ok(result) =>
          doc.Write(slots[k], result.css);
        case Err(e) =>
          if failure.None? {
            failure := Some(e);
          }
      }
      t := t + 1;
    }
    assert order[..|order|] == order;
    SettledInAnyOrder(texts, outs, order);
    if failure.Some? {
      r := Err(failure.value);
    } else {
      FirstFailureComplete(order, outs);
      AllSettledOk(order, outs);
      r := Ok(seq(|pending|, k requires 0 <= k < |pending| => pending[k].value));
    }
  }
}
