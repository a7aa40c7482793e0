/** How a turn is put together from the pieces a stream delivers: text, images and tool calls. */
module Folding {
  import opened Basics

  datatype Image = Image(url: string, mediaType: string)

  datatype ToolDelta = ToolDelta(index: int, id: string, name: string, args: string)

  /** What one stream event contributes. */
  datatype Chunk = Chunk(content: string, images: seq<Image>, toolDeltas: seq<ToolDelta>, finish: string)

  function Concat(parts: seq<string>): string {
    if parts == [] then [] else parts[0] + Concat(parts[1..])
  }

  // ---- text ----

  /** normalizeAssistantContent: the part of a delta that is news, given the text so far. */
  function News(current: string, incoming: string): string {
    if incoming == "" then ""
    else if current == "" then incoming
    else if HasPrefix(incoming, current) then incoming[|current|..]
    else incoming
  }

  /** The text after further deltas. */
  function FoldText(current: string, deltas: seq<string>): string
    decreases |deltas|
  {
    if deltas == [] then current else FoldText(current + News(current, deltas[0]), deltas[1..])
  }

  /** The partial messages sent on the way: the news that is not empty. */
  function Partials(current: string, deltas: seq<string>): seq<string>
    decreases |deltas|
  {
    if deltas == [] then []
    else
      var news := News(current, deltas[0]);
      (if news == "" then [] else [news]) + Partials(current + news, deltas[1..])
  }

  /** Text is only ever added behind the text so far, and the partial messages add up to it. */
  lemma {:induction false} PartialsAddUp(current: string, deltas: seq<string>)
    ensures FoldText(current, deltas) == current + Concat(Partials(current, deltas))
    ensures forall i :: 0 <= i < |Partials(current, deltas)| ==> Partials(current, deltas)[i] != ""
    decreases |deltas|
  {
    if deltas != [] {
      var news := News(current, deltas[0]);
      var rest := Partials(current + news, deltas[1..]);
      PartialsAddUp(current + news, deltas[1..]);
      if news == "" {
        assert [] + rest == rest && current + news == current;
      } else {
        assert ([news] + rest)[1..] == rest;
        assert current + (news + Concat(rest)) == (current + news) + Concat(rest);
      }
    }
  }

  /** A delta that repeats all the text so far and is taken for a snapshot. */
  predicate Absorbs(current: string, delta: string) {
    current != "" && HasPrefix(delta, current)
  }

  predicate NoneAbsorbed(current: string, deltas: seq<string>)
    decreases |deltas|
  {
    deltas == [] || (!Absorbs(current, deltas[0]) && NoneAbsorbed(current + deltas[0], deltas[1..]))
  }

  lemma {:induction false} FoldTextLength(current: string, deltas: seq<string>)
    ensures |FoldText(current, deltas)| <= |current| + |Concat(deltas)|
    ensures |FoldText(current, deltas)| == |current| + |Concat(deltas)| ==> NoneAbsorbed(current, deltas)
    decreases |deltas|
  {
    if deltas != [] {
      FoldTextLength(current + News(current, deltas[0]), deltas[1..]);
    }
  }

  /** The text is the plain concatenation of the deltas exactly when none of them, at the time it
      arrives, begins with all the text so far. */
  lemma {:induction false} PlainConcatenationIff(current: string, deltas: seq<string>)
    ensures FoldText(current, deltas) == current + Concat(deltas) <==> NoneAbsorbed(current, deltas)
    decreases |deltas|
  {
    if deltas == [] {
      assert current + [] == current;
    } else {
      FoldTextLength(current, deltas);
      if !Absorbs(current, deltas[0]) {
        var rest := Concat(deltas[1..]);
        assert News(current, deltas[0]) == deltas[0];
        PlainConcatenationIff(current + deltas[0], deltas[1..]);
        assert current + (deltas[0] + rest) == current + deltas[0] + rest;
      } else {
        assert |Concat(deltas)| == |deltas[0]| + |Concat(deltas[1..])|;
      }
    }
  }

  /** Once the text is longer than every delta still to come, nothing is absorbed any more. */
  lemma {:induction false} ShortDeltasAreKept(current: string, deltas: seq<string>)
    requires forall i :: 0 <= i < |deltas| ==> |deltas[i]| < |current|
    ensures NoneAbsorbed(current, deltas)
    decreases |deltas|
  {
    if deltas != [] {
      ShortDeltasAreKept(current + deltas[0], deltas[1..]);
    }
  }

  lemma {:induction false} FoldTextAppend(current: string, a: seq<string>, b: seq<string>)
    ensures FoldText(current, a + b) == FoldText(FoldText(current, a), b)
    decreases |a|
  {
    if a == [] {
      assert a + b == b;
    } else {
      assert (a + b)[1..] == a[1..] + b;
      FoldTextAppend(current + News(current, a[0]), a[1..], b);
    }
  }

  /** Snapshots of the finished text, however many, add nothing. */
  lemma {:induction false} SnapshotsAddNothing(full: string, snapshots: seq<string>)
    requires forall i :: 0 <= i < |snapshots| ==> snapshots[i] == full
    ensures FoldText(full, snapshots) == full
    decreases |snapshots|
  {
    if snapshots != [] {
      assert snapshots[0] == full && full + News(full, full) == full;
      SnapshotsAddNothing(full, snapshots[1..]);
    }
  }

  /** A stream that only sends growing snapshots ends with the last one. */
  lemma {:induction false} GrowingSnapshots(current: string, snapshots: seq<string>)
    requires snapshots != [] && HasPrefix(snapshots[0], current)
    requires forall i :: 0 < i < |snapshots| ==> HasPrefix(snapshots[i], snapshots[i - 1])
    ensures FoldText(current, snapshots) == snapshots[|snapshots| - 1]
    decreases |snapshots|
  {
    assert current + News(current, snapshots[0]) == snapshots[0];
    if |snapshots| > 1 {
      var rest := snapshots[1..];
      assert rest[0] == snapshots[1];
      assert forall i :: 0 < i < |rest| ==> rest[i] == snapshots[i + 1] && rest[i - 1] == snapshots[i];
      GrowingSnapshots(snapshots[0], rest);
    }
  }

  // ---- tool calls ----

  /** A call under construction; also its final form. */
  datatype Call = Call(id: string, name: string, args: string)

  type Calls = map<int, Call>

  const BLANK_CALL: Call := Call("", "", "")

  function Extend(c: Call, td: ToolDelta): Call {
    Call(if td.id != "" then td.id else c.id, if td.name != "" then td.name else c.name, c.args + td.args)
  }

  function AddDelta(calls: Calls, td: ToolDelta): Calls {
    calls[td.index := Extend(if td.index in calls then calls[td.index] else BLANK_CALL, td)]
  }

  function AddDeltas(calls: Calls, tds: seq<ToolDelta>): Calls {
    if tds == [] then calls else AddDelta(AddDeltas(calls, tds[..|tds| - 1]), tds[|tds| - 1])
  }

  lemma {:induction false} AddDeltasAppend(calls: Calls, a: seq<ToolDelta>, b: seq<ToolDelta>)
    ensures AddDeltas(calls, a + b) == AddDeltas(AddDeltas(calls, a), b)
    decreases |b|
  {
    if b == [] {
      assert a + b == a;
    } else {
      assert (a + b)[..|a + b| - 1] == a + b[..|b| - 1];
      AddDeltasAppend(calls, a, b[..|b| - 1]);
    }
  }

  /** The deltas for one index, in order. */
  function ForIndex(tds: seq<ToolDelta>, index: int): seq<ToolDelta> {
    if tds == [] then []
    else
      var before := ForIndex(tds[..|tds| - 1], index);
      if tds[|tds| - 1].index == index then before + [tds[|tds| - 1]] else before
  }

  function ArgsOf(tds: seq<ToolDelta>): string {
    if tds == [] then [] else ArgsOf(tds[..|tds| - 1]) + tds[|tds| - 1].args
  }

  /** The last id (or name) that is not empty. */
  function LastId(tds: seq<ToolDelta>): string {
    if tds == [] then "" else if tds[|tds| - 1].id != "" then tds[|tds| - 1].id else LastId(tds[..|tds| - 1])
  }

  function LastName(tds: seq<ToolDelta>): string {
    if tds == [] then "" else if tds[|tds| - 1].name != "" then tds[|tds| - 1].name else LastName(tds[..|tds| - 1])
  }

  /** A call depends on the deltas of its own index only: the last id and name that are not empty, and
      all argument pieces in order. */
  lemma {:induction false} CallFromOwnDeltas(tds: seq<ToolDelta>, index: int)
    ensures var own := ForIndex(tds, index);
      if own == [] then index !in AddDeltas(map[], tds)
      else index in AddDeltas(map[], tds) &&
           AddDeltas(map[], tds)[index] == Call(LastId(own), LastName(own), ArgsOf(own))
    decreases |tds|
  {
    if tds != [] {
      var n := |tds| - 1;
      CallFromOwnDeltas(tds[..n], index);
      var before := ForIndex(tds[..n], index);
      if tds[n].index == index {
        assert (before + [tds[n]])[..|before|] == before;
        assert LastId([]) == "" && LastName([]) == "" && ArgsOf([]) == "";
      }
    }
  }

  /** Any interleaving of the same per-index deltas assembles the same calls. */
  lemma InterleavingsAgree(a: seq<ToolDelta>, b: seq<ToolDelta>)
    requires forall index :: ForIndex(a, index) == ForIndex(b, index)
    ensures AddDeltas(map[], a) == AddDeltas(map[], b)
  {
    var x, y := AddDeltas(map[], a), AddDeltas(map[], b);
    forall index
      ensures index in x <==> index in y
      ensures index in x && index in y ==> x[index] == y[index]
    {
      assert ForIndex(a, index) == ForIndex(b, index);
      CallFromOwnDeltas(a, index);
      CallFromOwnDeltas(b, index);
    }
  }

  /** The calls at indices 0 to n-1, by index. */
  function CallsBelow(calls: Calls, n: nat): seq<Call> {
    if n == 0 then []
    else CallsBelow(calls, n - 1) + (if n - 1 in calls then [calls[n - 1]] else [])
  }

  /** One more than the largest index, or zero when no index is non-negative. */
  ghost predicate IsBound(calls: Calls, n: nat) {
    && (forall i :: i in calls ==> i < n)
    && (n > 0 ==> n - 1 in calls)
  }

  lemma {:induction false} HasBound(keys: set<int>) returns (n: nat)
    ensures forall i :: i in keys ==> i < n
    ensures n > 0 ==> n - 1 in keys
  {
    if k: int :| k in keys && k >= 0 {
      var m := HasBound(keys - {k});
      n := if m > k + 1 then m else k + 1;
      assert forall i :: i in keys ==> i == k || i in keys - {k};
    } else {
      n := 0;
    }
  }

  lemma BoundExists(calls: Calls)
    ensures exists n: nat :: IsBound(calls, n)
  {
    var n := HasBound(calls.Keys);
    assert IsBound(calls, n);
  }

  ghost function Bound(calls: Calls): (n: nat)
    ensures IsBound(calls, n)
  {
    BoundExists(calls);
    var n: nat :| IsBound(calls, n);
    n
  }

  /** The calls of a turn in index order. */
  ghost function Ordered(calls: Calls): seq<Call> {
    CallsBelow(calls, Bound(calls))
  }

  method OrderCalls(calls: Calls) returns (out: seq<Call>)
    ensures out == Ordered(calls)
  {
    var max := -1;
    var todo := calls.Items;
    while todo != {}
      invariant todo <= calls.Items
      invariant max >= -1 && (max >= 0 ==> max in calls)
      invariant forall i :: i in calls && (i, calls[i]) !in todo ==> i <= max
      decreases todo
    {
      var entry :| entry in todo;
      todo := todo - {entry};
      if entry.0 > max {
        max := entry.0;
      }
    }
    assert Bound(calls) == max + 1;
    out := [];
    for i := 0 to max + 1
      invariant out == CallsBelow(calls, i)
    {
      if i in calls {
        out := out + [calls[i]];
      }
    }
  }

  /** The indices listed below n. */
  function IndicesBelow(calls: Calls, n: nat): seq<int> {
    if n == 0 then []
    else IndicesBelow(calls, n - 1) + (if n - 1 in calls then [n - 1] else [])
  }

  lemma {:induction false} IndicesBelowAre(calls: Calls, n: nat)
    ensures var ks := IndicesBelow(calls, n);
      && (forall k :: k in ks <==> 0 <= k < n && k in calls)
      && (forall i, j :: 0 <= i < j < |ks| ==> ks[i] < ks[j])
      && |CallsBelow(calls, n)| == |ks|
      && (forall i :: 0 <= i < |ks| ==> ks[i] in calls && CallsBelow(calls, n)[i] == calls[ks[i]])
  {
    if n > 0 {
      IndicesBelowAre(calls, n - 1);
    }
  }

  /** Exactly the calls with a non-negative index, in strictly ascending order of their indices.
      A call with a negative index is dropped. */
  lemma OrderedListsNonNegative(calls: Calls)
    ensures var ks := IndicesBelow(calls, Bound(calls));
      && (forall k :: k in ks <==> k in calls && k >= 0)
      && (forall i, j :: 0 <= i < j < |ks| ==> ks[i] < ks[j])
      && |Ordered(calls)| == |ks|
      && (forall i :: 0 <= i < |ks| ==> ks[i] in calls && Ordered(calls)[i] == calls[ks[i]])
  {
    IndicesBelowAre(calls, Bound(calls));
  }

  // ---- images ----

  function Urls(images: seq<Image>): set<string> {
    set i | 0 <= i < |images| :: images[i].url
  }

  /** Images in order of first arrival, one for each URL, none without. */
  function FirstByUrl(images: seq<Image>): seq<Image> {
    if images == [] then []
    else
      var n := |images| - 1;
      var before := FirstByUrl(images[..n]);
      if images[n].url == "" || images[n].url in Urls(images[..n]) then before else before + [images[n]]
  }

  lemma UrlsLast(images: seq<Image>)
    requires images != []
    ensures Urls(images) == Urls(images[..|images| - 1]) + {images[|images| - 1].url}
  {
    var n := |images| - 1;
    assert forall i :: 0 <= i < n ==> images[..n][i] == images[i];
    forall u | u in Urls(images)
      ensures u in Urls(images[..n]) + {images[n].url}
    {
      var i :| 0 <= i < |images| && images[i].url == u;
      if i < n {
        assert images[..n][i].url == u;
      }
    }
  }

  /** The image at i is the first with its URL. */
  predicate IsFirst(images: seq<Image>, i: int) {
    0 <= i < |images| && images[i].url != "" && images[i].url !in Urls(images[..i])
  }

  /** Where the first images of their URLs stand. */
  function Firsts(images: seq<Image>): seq<nat> {
    if images == [] then []
    else
      var n := |images| - 1;
      Firsts(images[..n]) + if IsFirst(images, n) then [n] else []
  }

  /** They are all of them, in ascending order. */
  lemma {:induction false} FirstsAre(images: seq<Image>)
    ensures forall i :: i in Firsts(images) <==> IsFirst(images, i)
    ensures forall k, l :: 0 <= k < l < |Firsts(images)| ==> Firsts(images)[k] < Firsts(images)[l]
    decreases |images|
  {
    if images != [] {
      var n := |images| - 1;
      FirstsAre(images[..n]);
      var before := Firsts(images[..n]);
      forall i
        ensures i in before <==> i < n && IsFirst(images, i)
      {
        if 0 <= i < n {
          assert images[..n][..i] == images[..i];
        }
      }
      forall k | 0 <= k < |before|
        ensures before[k] < n
      {
        assert before[k] in before;
      }
    }
  }

  /** The kept images are those that are the first with their URL, in order of arrival: they stand where
      all the first ones stand. */
  lemma {:induction false} FirstByUrlKeepsFirsts(images: seq<Image>)
    ensures var kept, at := FirstByUrl(images), Firsts(images);
      && |kept| == |at|
      && (forall k :: 0 <= k < |kept| ==> 0 <= at[k] < |images| && kept[k] == images[at[k]])
    decreases |images|
  {
    if images != [] {
      FirstByUrlKeepsFirsts(images[..|images| - 1]);
    }
  }

  /** Their URLs are pairwise distinct, and all that arrived but the empty one. */
  lemma {:induction false} FirstByUrlKeepsUrls(images: seq<Image>)
    ensures var kept := FirstByUrl(images);
      && Urls(kept) == Urls(images) - {""}
      && (forall i, j :: 0 <= i < j < |kept| ==> kept[i].url != kept[j].url)
    decreases |images|
  {
    if images != [] {
      var n := |images| - 1;
      FirstByUrlKeepsUrls(images[..n]);
      UrlsLast(images);
      var before, kept := FirstByUrl(images[..n]), FirstByUrl(images);
      assert forall k :: 0 <= k < |before| ==> before[k].url in Urls(before);
      if kept != before {
        assert kept[..|kept| - 1] == before;
        UrlsLast(kept);
      }
    }
  }

  /** All of it together. */
  lemma FirstByUrlKeeps(images: seq<Image>)
    ensures var kept, at := FirstByUrl(images), Firsts(images);
      && |kept| == |at|
      && (forall i :: i in at <==> IsFirst(images, i))
      && (forall k, l :: 0 <= k < l < |at| ==> at[k] < at[l])
      && (forall k :: 0 <= k < |kept| ==> 0 <= at[k] < |images| && kept[k] == images[at[k]])
      && Urls(kept) == Urls(images) - {""}
      && (forall i, j :: 0 <= i < j < |kept| ==> kept[i].url != kept[j].url)
  {
    FirstsAre(images);
    FirstByUrlKeepsFirsts(images);
    FirstByUrlKeepsUrls(images);
  }

  lemma UrlsAppend(a: seq<Image>, b: seq<Image>)
    ensures Urls(a + b) == Urls(a) + Urls(b)
    ensures forall i :: 0 <= i < |a| ==> a[i].url in Urls(a)
    ensures forall i :: 0 <= i < |b| ==> b[i].url in Urls(b)
  {
    var c := a + b;
    forall u | u in Urls(a) + Urls(b)
      ensures u in Urls(c)
    {
      if u in Urls(a) {
        var i :| 0 <= i < |a| && a[i].url == u;
        assert c[i].url == u;
      } else {
        var i :| 0 <= i < |b| && b[i].url == u;
        assert c[|a| + i].url == u;
      }
    }
  }

  /** The kept images after a batch: those of the batch whose URL is new are added. */
  function Keep(kept: seq<Image>, incoming: seq<Image>): (r: seq<Image>)
    ensures |kept| <= |r|
  {
    if incoming == [] then kept
    else
      var n := |incoming| - 1;
      var before := Keep(kept, incoming[..n]);
      if incoming[n].url == "" || incoming[n].url in Urls(before) then before else before + [incoming[n]]
  }

  /** appendNewAssistantImages: those of a batch that are new. */
  method NewImages(existing: seq<Image>, incoming: seq<Image>) returns (out: seq<Image>)
    ensures existing + out == Keep(existing, incoming)
  {
    if |incoming| == 0 {
      return [];
    }
    var seen: set<string> := {};
    var k := 0;
    while k < |existing|
      invariant 0 <= k <= |existing| && seen == Urls(existing[..k])
    {
      UrlsLast(existing[..k + 1]);
      assert existing[..k + 1][..k] == existing[..k];
      seen := seen + {existing[k].url};
      k := k + 1;
    }
    assert existing[..k] == existing;
    out := [];
    assert existing + out == existing;
    var i := 0;
    while i < |incoming|
      invariant 0 <= i <= |incoming|
      invariant existing + out == Keep(existing, incoming[..i])
      invariant seen == Urls(existing + out)
    {
      assert incoming[..i + 1][..i] == incoming[..i];
      var image := incoming[i];
      if image.url != "" && image.url !in seen {
        ghost var kept := existing + out;
        UrlsLast(kept + [image]);
        assert (kept + [image])[..|kept|] == kept;
        assert existing + (out + [image]) == kept + [image];
        seen := seen + {image.url};
        out := out + [image];
      }
      i := i + 1;
    }
    assert incoming[..i] == incoming;
  }

  lemma OneMoreArrival(arrived: seq<Image>, image: Image)
    ensures var before := FirstByUrl(arrived);
      FirstByUrl(arrived + [image]) == if image.url == "" || image.url in Urls(before) then before else before + [image]
  {
    var all := arrived + [image];
    assert all[..|all| - 1] == arrived && all[|all| - 1] == image;
    FirstByUrlKeepsUrls(arrived);
  }

  /** Batch by batch, what is kept over a whole stream is the first arrival of each URL. */
  lemma {:induction false} BatchesKeepFirstArrivals(arrived: seq<Image>, incoming: seq<Image>)
    ensures Keep(FirstByUrl(arrived), incoming) == FirstByUrl(arrived + incoming)
    decreases |incoming|
  {
    if incoming == [] {
      assert arrived + incoming == arrived;
    } else {
      var n := |incoming| - 1;
      BatchesKeepFirstArrivals(arrived, incoming[..n]);
      OneMoreArrival(arrived + incoming[..n], incoming[n]);
      assert arrived + incoming == arrived + incoming[..n] + [incoming[n]];
    }
  }
}
