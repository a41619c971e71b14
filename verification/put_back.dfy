/**
 The lookahead stream (`CodePairPutBack`): a stack of pushed-back items in
 front of the underlying item sequence, which hides code-999 comments from
 every reader.

 The underlying iterator is modelled as the finite sequence of items it has
 still to produce, so every read strictly shortens something.
 */
module CodePairPutBack {
  import opened CodePairs

  /** `top` is the pushback stack; its LAST element is the top of the stack
      (Rust `Vec::push`/`Vec::pop`). `rest` is what the underlying iterator
      has still to produce. */
  datatype Stream = Stream(top: seq<Item>, rest: seq<Item>)

  /** A comment record, code 999. */
  predicate IsComment(item: Item) {
    item.Ok? && item.value.code == 999
  }

  /** Reference definition: the underlying items with comments removed. */
  function StripComments(items: seq<Item>): (r: seq<Item>)
    ensures |r| <= |items|
    ensures forall i :: 0 <= i < |r| ==> !IsComment(r[i])
  {
    if items == [] then []
    else if IsComment(items[0]) then StripComments(items[1..])
    else [items[0]] + StripComments(items[1..])
  }

  function Reverse(xs: seq<Item>): (r: seq<Item>)
    ensures |r| == |xs|
    ensures forall i :: 0 <= i < |xs| ==> r[i] == xs[|xs| - 1 - i]
  {
    if xs == [] then [] else [xs[|xs| - 1]] + Reverse(xs[..|xs| - 1])
  }

  /** Everything the stream will still hand out, in order: the stack from the
      top down, then the non-comment underlying items. */
  function View(s: Stream): seq<Item> {
    Reverse(s.top) + StripComments(s.rest)
  }

  predicate IsSuffix(a: seq<Item>, b: seq<Item>) {
    |a| <= |b| && a == b[|b| - |a|..]
  }

  lemma SuffixTransitive(a: seq<Item>, b: seq<Item>, c: seq<Item>)
    requires IsSuffix(a, b) && IsSuffix(b, c)
    ensures IsSuffix(a, c)
  {
    assert c[|c| - |b|..][|b| - |a|..] == c[|c| - |a|..];
  }

  /** `from_code_pair_iter`: a fresh stream has an empty stack. */
  function FromCodePairIter(items: seq<Item>): (s: Stream)
    ensures s.top == [] && s.rest == items
    ensures View(s) == StripComments(items)
  {
    Stream([], items)
  }

  /** `put_back`: push one item, verbatim, onto the stack. */
  function PutBack(s: Stream, item: Item): (r: Stream)
    ensures View(r) == [item] + View(s)
    ensures r.rest == s.rest
  {
    Stream(s.top + [item], s.rest)
  }

  /** The comment-skipping pull from the underlying iterator: the first
      non-comment item and what follows it. */
  function NextUnderlying(items: seq<Item>): (r: (Option<Item>, seq<Item>))
    ensures r.0.None? <==> StripComments(items) == []
    ensures r.0.None? ==> r.1 == [] && forall j :: 0 <= j < |items| ==> IsComment(items[j])
    ensures r.0.Some? ==> StripComments(items) == [r.0.value] + StripComments(r.1)
    ensures r.0.Some? ==>
      && |r.1| < |items|
      && r.1 == items[|items| - |r.1|..]
      && items[|items| - |r.1| - 1] == r.0.value
      && !IsComment(r.0.value)
      && forall j :: 0 <= j < |items| - |r.1| - 1 ==> IsComment(items[j])
  {
    if items == [] then (None, [])
    else if IsComment(items[0]) then NextUnderlying(items[1..])
    else (Some(items[0]), items[1..])
  }

  /** `Iterator::next`: pop the stack if it is non-empty, otherwise pull the
      next non-comment item. End of input is `None`. */
  function Next(s: Stream): (r: (Option<Item>, Stream))
    ensures r.0.None? <==> View(s) == []
    ensures r.0.None? ==> View(r.1) == []
    ensures r.0.Some? ==> r.0.value == View(s)[0] && View(r.1) == View(s)[1..]
    ensures s.top != [] ==> r.0.Some? && r.1.rest == s.rest
    ensures s.top == [] ==> r.1.top == [] && r == (NextUnderlying(s.rest).0, Stream([], NextUnderlying(s.rest).1))
  {
    if s.top == [] then
      var (item, rest) := NextUnderlying(s.rest);
      (item, Stream([], rest))
    else
      (Some(s.top[|s.top| - 1]), Stream(s.top[..|s.top| - 1], s.rest))
  }

  /** Everything a reader obtains by calling `next` until it returns `None`. */
  function Drain(s: Stream): seq<Item>
    decreases |View(s)|
  {
    var (item, s') := Next(s);
    match item
    case None => []
    case Some(x) => [x] + Drain(s')
  }

  /** After `put_back(x)` the next read returns exactly `x`, and the stream is
      back in the state it had before the push. */
  lemma PutBackThenNext(s: Stream, x: Item)
    ensures Next(PutBack(s, x)) == (Some(x), s)
  {
    assert (s.top + [x])[..|s.top|] == s.top;
  }

  /** Two pushes are replayed last-in first-out. */
  lemma PutBackIsLifo(s: Stream, a: Item, b: Item)
    ensures Next(PutBack(PutBack(s, a), b)).0 == Some(b)
    ensures Next(Next(PutBack(PutBack(s, a), b)).1) == (Some(a), s)
  {
    PutBackThenNext(PutBack(s, a), b);
    PutBackThenNext(s, a);
  }

  /** While the stack is non-empty, reading takes its top verbatim (even a
      comment or an error) and leaves the underlying iterator untouched. */
  lemma StackShieldsUnderlying(s: Stream)
    requires s.top != []
    ensures Next(s).0 == Some(s.top[|s.top| - 1])
    ensures Next(s).1 == Stream(s.top[..|s.top| - 1], s.rest)
  {
  }

  /** With an empty stack, `next` returns the first non-comment underlying
      item (an error item included) and consumes only the comments before it;
      if only comments remain it returns `None`. */
  lemma EmptyStackSkipsOnlyComments(s: Stream)
    requires s.top == []
    ensures Next(s).0.Some? ==>
      exists k :: 0 <= k < |s.rest|
        && Next(s).0 == Some(s.rest[k])
        && !IsComment(s.rest[k])
        && (forall j :: 0 <= j < k ==> IsComment(s.rest[j]))
        && Next(s).1 == Stream([], s.rest[k + 1..])
    ensures Next(s).0.None? ==> forall j :: 0 <= j < |s.rest| ==> IsComment(s.rest[j])
  {
    var (item, rest) := NextUnderlying(s.rest);
    if item.Some? {
      var k := |s.rest| - |rest| - 1;
      assert s.rest[k + 1..] == rest;
    }
  }

  /** Reading everything out of any stream yields exactly its view. */
  lemma {:induction false} DrainIsView(s: Stream)
    ensures Drain(s) == View(s)
    decreases |View(s)|
  {
    var (item, s') := Next(s);
    if item.Some? {
      DrainIsView(s');
    }
  }

  /** Comment transparency: a fresh stream yields the underlying items with
      every code-999 pair removed and nothing else changed. */
  lemma FreshStreamStripsComments(items: seq<Item>)
    ensures Drain(FromCodePairIter(items)) == StripComments(items)
  {
    DrainIsView(FromCodePairIter(items));
  }
}
