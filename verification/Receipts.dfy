/**
 The receipt worklist of the bootstrap probe (`scripts/factory_gate_bootstrap_probe.py`): following
 behavioural receipts through the artifact store.
 */
module Receipts {
  import opened Common

  datatype Capture = Capture(digest: string, size: nat)

  /** An artifact's content: not a receipt, a receipt, or a document that claims to be one and is not. */
  datatype Body =
    | Opaque
    | Receipt(digest: string, captures: seq<Capture>, inputs: seq<string>)
    | Broken

  /** A stored artifact; `intact` says its bytes still hash to the name it is stored under. */
  datatype Artifact = Artifact(intact: bool, size: nat, body: Body)

  /** The store by digest text. Nothing keeps receipts in it from naming each other in a circle. */
  type Store = map<string, Artifact>

  datatype Projection = Projection(verified: set<string>, receipts: map<string, Body>)

  // --- Reachability --------------------------------------------------------------------------

  ghost predicate Names(store: Store, receipt: string, input: string) {
    receipt in store && store[receipt].body.Receipt? && input in store[receipt].body.inputs
  }

  ghost predicate Path(store: Store, path: seq<string>) {
    path != [] && forall i | 0 <= i < |path| - 1 :: Names(store, path[i], path[i + 1])
  }

  ghost predicate Connects(store: Store, path: seq<string>, from: seq<string>, to: string) {
    Path(store, path) && path[0] in from && path[|path| - 1] == to
  }

  /** `to` is one of `from` or is reached from one of them through the inputs of receipts. */
  ghost predicate Reachable(store: Store, from: seq<string>, to: string) {
    exists path :: Connects(store, path, from, to)
  }

  lemma PathTail(store: Store, path: seq<string>)
    requires Path(store, path) && |path| > 1
    ensures Path(store, path[1..])
  {
    forall i | 0 <= i < |path[1..]| - 1 ensures Names(store, path[1..][i], path[1..][i + 1]) {
      assert Names(store, path[i + 1], path[i + 1 + 1]);
    }
  }

  lemma StartIsReachable(store: Store, from: seq<string>, to: string)
    requires to in from
    ensures Reachable(store, from, to)
  {
    assert Connects(store, [to], from, to);
  }

  lemma InputIsReachable(store: Store, from: seq<string>, receipt: string, input: string)
    requires Reachable(store, from, receipt) && Names(store, receipt, input)
    ensures Reachable(store, from, input)
  {
    var path :| Connects(store, path, from, receipt);
    assert Connects(store, path + [input], from, input);
  }

  // --- What the walk checks of one artifact --------------------------------------------------

  predicate Readable(store: Store, digest: string) {
    digest in store && store[digest].intact
  }

  predicate CapturesHold(store: Store, captures: seq<Capture>) {
    forall i | 0 <= i < |captures| ::
      Readable(store, captures[i].digest) && store[captures[i].digest].size == captures[i].size
  }

  /** The artifact is there and intact and, if it is a receipt, is canonical with all its captures. */
  predicate Sound(store: Store, digest: string) {
    && Readable(store, digest)
    && !store[digest].body.Broken?
    && (store[digest].body.Receipt? ==>
          store[digest].body.digest == digest && CapturesHold(store, store[digest].body.captures))
  }

  ghost predicate AllSound(store: Store, from: seq<string>) {
    forall digest | Reachable(store, from, digest) :: Sound(store, digest)
  }

  /** Some reachable receipt lists `digest` among its captures. */
  ghost predicate Captured(store: Store, from: seq<string>, digest: string) {
    exists receipt, i :: Captures(store, from, receipt, i, digest)
  }

  ghost predicate Captures(store: Store, from: seq<string>, receipt: string, i: int, digest: string) {
    && Reachable(store, from, receipt) && receipt in store && store[receipt].body.Receipt?
    && 0 <= i < |store[receipt].body.captures| && store[receipt].body.captures[i].digest == digest
  }

  predicate Plain(store: Store, digest: string) {
    digest in store && store[digest].body.Opaque?
  }

  // --- The walk ------------------------------------------------------------------------------

  /** The receipt was read, checked and followed. */
  ghost predicate Followed(store: Store, from: seq<string>, receipt: string, seen: set<string>) {
    && Reachable(store, from, receipt) && receipt in seen
    && Sound(store, receipt) && store[receipt].body.Receipt?
    && forall input | input in store[receipt].body.inputs :: input in seen
  }

  /** What a walk that returns normally has established. */
  ghost predicate Established(store: Store, from: seq<string>, seen: set<string>, receipts: map<string, Body>) {
    && (forall digest | digest in seen :: Readable(store, digest))
    && (forall digest | digest in from :: digest in seen)
    && (forall receipt | receipt in receipts ::
          Followed(store, from, receipt, seen) && receipts[receipt] == store[receipt].body)
    && (forall digest | digest in seen :: digest in receipts || Plain(store, digest) || Captured(store, from, digest))
  }

  function DigestsOf(captures: seq<Capture>): seq<string> {
    seq(|captures|, i requires 0 <= i < |captures| => captures[i].digest)
  }

  method CheckCaptures(store: Store, captures: seq<Capture>) returns (ok: bool)
    ensures ok <==> CapturesHold(store, captures)
  {
    for n := 0 to |captures|
      invariant CapturesHold(store, captures[..n])
    {
      assert captures[..n + 1] == captures[..n] + [captures[n]];
      if captures[n].digest !in store || !store[captures[n].digest].intact
         || store[captures[n].digest].size != captures[n].size {
        assert !CapturesHold(store, captures);
        return false;
      }
    }
    assert captures[..|captures|] == captures;
    return true;
  }

  /** Reading one artifact, with every check the loop makes of it. */
  method ReadArtifact(store: Store, text: string) returns (body: Option<Body>)
    ensures body.Some? <==> Sound(store, text)
    ensures body.Some? ==> body.value == store[text].body
  {
    if !Readable(store, text) || store[text].body.Broken? {
      return None;
    }
    if store[text].body.Receipt? {
      if store[text].body.digest != text {
        return None;
      }
      var held := CheckCaptures(store, store[text].body.captures);
      if !held {
        return None;
      }
    }
    return Some(store[text].body);
  }

  function Elements(texts: seq<string>): set<string> {
    set text | text in texts
  }

  lemma ElementsOfConcat(a: seq<string>, b: seq<string>)
    ensures Elements(a + b) == Elements(a) + Elements(b)
  {
    assert forall text | text in a + b :: text in a || text in b;
  }

  lemma ElementsOfLast(texts: seq<string>)
    requires texts != []
    ensures Elements(texts) == Elements(texts[..|texts| - 1]) + {texts[|texts| - 1]}
  {
    assert texts == texts[..|texts| - 1] + [texts[|texts| - 1]];
    ElementsOfConcat(texts[..|texts| - 1], [texts[|texts| - 1]]);
    assert Elements([texts[|texts| - 1]]) == {texts[|texts| - 1]};
  }

  lemma CapturedOnes(store: Store, from: seq<string>, receipt: string)
    requires Reachable(store, from, receipt) && receipt in store && store[receipt].body.Receipt?
    requires CapturesHold(store, store[receipt].body.captures)
    ensures forall digest | digest in DigestsOf(store[receipt].body.captures) ::
              Captured(store, from, digest) && Readable(store, digest)
  {
    var captures := store[receipt].body.captures;
    forall digest | digest in DigestsOf(captures) ensures Captured(store, from, digest) && Readable(store, digest) {
      var i :| 0 <= i < |captures| && captures[i].digest == digest;
      assert Captures(store, from, receipt, i, digest);
    }
  }

  lemma InputsReachable(store: Store, from: seq<string>, receipt: string)
    requires Reachable(store, from, receipt) && receipt in store && store[receipt].body.Receipt?
    ensures forall input | input in store[receipt].body.inputs :: Reachable(store, from, input)
  {
    forall input | input in store[receipt].body.inputs ensures Reachable(store, from, input) {
      InputIsReachable(store, from, receipt, input);
    }
  }

  /** The unread part of the store shrinks whenever something is read. */
  lemma ReadingShrinks(store: Store, seen: set<string>, more: set<string>, text: string)
    requires text in store && text !in seen && text in more
    ensures |store.Keys - (seen + more)| < |store.Keys - seen|
  {
    var before, after := store.Keys - seen, store.Keys - (seen + more);
    assert after <= before - {text};
    SubsetIsSmaller(after, before - {text});
  }

  lemma {:induction false} SubsetIsSmaller(a: set<string>, b: set<string>)
    requires a <= b
    ensures |a| <= |b|
  {
    if a != {} {
      var x :| x in a;
      SubsetIsSmaller(a - {x}, b - {x});
    }
  }

  /** The state of a walk: everything due is either read already or still waiting. */
  ghost predicate Walking(store: Store, from: seq<string>, seen: set<string>, waiting: set<string>,
                          receipts: map<string, Body>) {
    && (forall digest | digest in waiting :: Reachable(store, from, digest))
    && (forall digest | digest in from :: digest in seen + waiting)
    && (forall digest | digest in seen :: Readable(store, digest))
    && (forall receipt | receipt in receipts :: receipt in seen
          && Followed(store, from, receipt, seen + waiting) && receipts[receipt] == store[receipt].body)
    && (forall digest | digest in seen :: digest in receipts || Plain(store, digest) || Captured(store, from, digest))
  }

  lemma WalkStarts(store: Store, from: seq<string>)
    ensures Walking(store, from, {}, Elements(from), map[])
  {
    forall digest | digest in from ensures Reachable(store, from, digest) {
      StartIsReachable(store, from, digest);
    }
  }

  lemma FollowedGrows(store: Store, from: seq<string>, receipt: string, seen: set<string>, more: set<string>)
    requires Followed(store, from, receipt, seen) && seen <= more
    ensures Followed(store, from, receipt, more)
  {
  }

  /** Something waiting was read already, or is plain and has now been read. */
  lemma WalkPasses(store: Store, from: seq<string>, seen: set<string>, waiting: set<string>, rest: set<string>,
                   receipts: map<string, Body>, text: string)
    requires Walking(store, from, seen, waiting, receipts)
    requires waiting == rest + {text}
    requires text in seen || (Readable(store, text) && Plain(store, text))
    ensures Walking(store, from, seen + {text}, rest, receipts)
  {
    assert seen + {text} + rest == seen + waiting;
  }

  /** A receipt is read, its captures are marked and its inputs are queued. */
  lemma WalkFollows(store: Store, from: seq<string>, seen: set<string>, waiting: set<string>, rest: set<string>,
                    receipts: map<string, Body>, text: string)
    requires Walking(store, from, seen, waiting, receipts)
    requires waiting == rest + {text}
    requires Sound(store, text) && store[text].body.Receipt?
    ensures var body := store[text].body;
            Walking(store, from, seen + Elements([text] + DigestsOf(body.captures)), rest + Elements(body.inputs),
                    receipts[text := body])
  {
    var body := store[text].body;
    var marked := Elements([text] + DigestsOf(body.captures));
    var now, later := seen + marked, rest + Elements(body.inputs);
    assert text in waiting && text in marked;
    CapturedOnes(store, from, text);
    InputsReachable(store, from, text);
    assert seen + waiting <= now + later;
    forall receipt | receipt in receipts[text := body] ensures Followed(store, from, receipt, now + later) {
      if receipt != text {
        FollowedGrows(store, from, receipt, seen + waiting, now + later);
      }
    }
    forall digest | digest in marked
      ensures Readable(store, digest) && (digest == text || Captured(store, from, digest))
    {
    }
  }

  /** The walk as a function: the last pending digest first, captures marked without being followed. */
  function {:tailrecursion false} Walked(
    store: Store, pending: seq<string>, seen: set<string>, receipts: map<string, Body>): Option<Projection>
    decreases |store.Keys - seen|, |pending|
  {
    if pending == [] then Some(Projection(seen, receipts))
    else
      var text, rest := pending[|pending| - 1], pending[..|pending| - 1];
      if text in seen then Walked(store, rest, seen, receipts)
      else if !Sound(store, text) then None
      else if store[text].body.Opaque? then
        ReadingShrinks(store, seen, {text}, text);
        Walked(store, rest, seen + {text}, receipts)
      else
        var body := store[text].body;
        var marked := [text] + DigestsOf(body.captures);
        assert text == marked[0];
        ReadingShrinks(store, seen, Elements(marked), text);
        Walked(store, rest + body.inputs, seen + Elements(marked), receipts[text := body])
  }

  lemma WalkEnds(store: Store, from: seq<string>, seen: set<string>, receipts: map<string, Body>)
    requires Walking(store, from, seen, {}, receipts)
    ensures Established(store, from, seen, receipts)
  {
    assert seen + {} == seen;
  }

  lemma WalkRefuses(store: Store, from: seq<string>, text: string)
    requires Reachable(store, from, text) && !Sound(store, text)
    ensures !AllSound(store, from)
  {
  }

  /** Whatever the store, a walk that ends establishes this much, and one that refuses met something unsound. */
  lemma {:induction false} WalkEstablishes(
    store: Store, from: seq<string>, pending: seq<string>, seen: set<string>, receipts: map<string, Body>)
    requires Walking(store, from, seen, Elements(pending), receipts)
    ensures var found := Walked(store, pending, seen, receipts);
            if found.Some? then Established(store, from, found.value.verified, found.value.receipts)
            else !AllSound(store, from)
    decreases |store.Keys - seen|, |pending|
  {
    if pending == [] {
      assert Elements(pending) == {};
      WalkEnds(store, from, seen, receipts);
    } else {
      var text, rest := pending[|pending| - 1], pending[..|pending| - 1];
      ElementsOfLast(pending);
      assert Reachable(store, from, text);
      if text in seen {
        WalkPasses(store, from, seen, Elements(pending), Elements(rest), receipts, text);
        assert seen + {text} == seen;
        WalkEstablishes(store, from, rest, seen, receipts);
      } else if !Sound(store, text) {
        WalkRefuses(store, from, text);
      } else if store[text].body.Opaque? {
        ReadingShrinks(store, seen, {text}, text);
        WalkPasses(store, from, seen, Elements(pending), Elements(rest), receipts, text);
        WalkEstablishes(store, from, rest, seen + {text}, receipts);
      } else {
        var body := store[text].body;
        var marked := [text] + DigestsOf(body.captures);
        assert text == marked[0];
        ReadingShrinks(store, seen, Elements(marked), text);
        WalkFollows(store, from, seen, Elements(pending), Elements(rest), receipts, text);
        ElementsOfConcat(rest, body.inputs);
        WalkEstablishes(store, from, rest + body.inputs, seen + Elements(marked), receipts[text := body]);
      }
    }
  }

  /**
   The loop `while pending`. It ends although receipts may name each other in a circle: reading
   shrinks the unread part of the store, and skipping shrinks the list.
   */
  method Walk(store: Store, from: seq<string>) returns (found: Option<Projection>)
    ensures found == Walked(store, from, {}, map[])
  {
    var pending := from;
    var verified: seq<string> := [];
    var receipts: map<string, Body> := map[];
    assert Elements(verified) == {};
    while pending != []
      invariant Walked(store, pending, Elements(verified), receipts) == Walked(store, from, {}, map[])
      decreases |store.Keys - Elements(verified)|, |pending|
    {
      var text := pending[|pending| - 1];
      pending := pending[..|pending| - 1];
      if text in verified {
        continue;
      }
      var read := ReadArtifact(store, text);
      if read.None? {
        return None;
      }
      var body := read.value;
      if body.Opaque? {
        ReadingShrinks(store, Elements(verified), {text}, text);
        ElementsOfLast(verified + [text]);
        verified := verified + [text];
        continue;
      }
      var marked := [text] + DigestsOf(body.captures);
      assert text == marked[0];
      ReadingShrinks(store, Elements(verified), Elements(marked), text);
      ElementsOfConcat(verified, marked);
      verified, pending, receipts := verified + marked, pending + body.inputs, receipts[text := body];
    }
    return Some(Projection(Elements(verified), receipts));
  }

  // --- When acceptance means everything reachable is sound -----------------------------------

  /**
   A digest that is reachable and also a capture, unless it is plain, leads to sound artifacts only.
   This is what the walk leaves unchecked, said of exactly the part it may not follow.  A caller can
   check `CapturesArePlain` below instead, which is enough.
   */
  ghost predicate CapturedAreSound(store: Store, from: seq<string>) {
    forall digest | Reachable(store, from, digest) && Captured(store, from, digest) && !Plain(store, digest) ::
      AllSound(store, [digest])
  }

  lemma {:induction false} PathEndsSound(
    store: Store, from: seq<string>, seen: set<string>, receipts: map<string, Body>, path: seq<string>)
    requires Established(store, from, seen, receipts) && CapturedAreSound(store, from)
    requires Path(store, path) && path[0] in seen && Reachable(store, from, path[0])
    ensures Sound(store, path[|path| - 1])
  {
    var first := path[0];
    if first in receipts {
      assert Followed(store, from, first, seen);
      if |path| > 1 {
        assert Names(store, path[0], path[1]);
        InputIsReachable(store, from, path[0], path[1]);
        PathTail(store, path);
        PathEndsSound(store, from, seen, receipts, path[1..]);
      }
    } else if Plain(store, first) {
      assert |path| > 1 ==> Names(store, path[0], path[1]);
    } else {
      assert Connects(store, path, [first], path[|path| - 1]);
      assert Reachable(store, [first], path[|path| - 1]);
    }
  }

  lemma ReachableOnward(store: Store, from: seq<string>, middle: string, to: string)
    requires Reachable(store, from, middle) && Reachable(store, [middle], to)
    ensures Reachable(store, from, to)
  {
    var a :| Connects(store, a, from, middle);
    var b :| Connects(store, b, [middle], to);
    var path := a + b[1..];
    forall i | 0 <= i < |path| - 1 ensures Names(store, path[i], path[i + 1]) {
      if i < |a| - 1 {
        assert Names(store, a[i], a[i + 1]);
      } else {
        assert Names(store, b[i - |a| + 1], b[i - |a| + 2]);
      }
    }
    assert Connects(store, path, from, to);
  }

  /** All that is reachable is sound exactly when the walk accepts and the captured receipts are sound. */
  lemma AcceptanceExactly(store: Store, from: seq<string>)
    ensures AllSound(store, from) <==> Walked(store, from, {}, map[]).Some? && CapturedAreSound(store, from)
  {
    WalkStarts(store, from);
    WalkEstablishes(store, from, from, {}, map[]);
    var found := Walked(store, from, {}, map[]);
    if found.Some? && CapturedAreSound(store, from) {
      forall digest | Reachable(store, from, digest) ensures Sound(store, digest) {
        var path :| Connects(store, path, from, digest);
        StartIsReachable(store, from, path[0]);
        PathEndsSound(store, from, found.value.verified, found.value.receipts, path);
      }
    }
    if AllSound(store, from) {
      forall digest, onward | Reachable(store, from, digest) && Reachable(store, [digest], onward)
        ensures Sound(store, onward)
      {
        ReachableOnward(store, from, digest, onward);
      }
    }
  }

  /** No capture that is reachable is a receipt; then nothing is marked without being followed. */
  ghost predicate CapturesArePlain(store: Store, from: seq<string>) {
    forall digest | Reachable(store, from, digest) && Captured(store, from, digest) :: Plain(store, digest)
  }

  lemma {:induction false} PathIsFollowed(
    store: Store, from: seq<string>, seen: set<string>, receipts: map<string, Body>, path: seq<string>)
    requires Established(store, from, seen, receipts) && CapturesArePlain(store, from)
    requires Path(store, path) && path[0] in seen && Reachable(store, from, path[0])
    ensures var to := path[|path| - 1]; to in seen && (to in receipts || Plain(store, to))
  {
    if |path| > 1 {
      assert Names(store, path[0], path[1]);
      InputIsReachable(store, from, path[0], path[1]);
      PathTail(store, path);
      assert Followed(store, from, path[0], seen);
      PathIsFollowed(store, from, seen, receipts, path[1..]);
    }
  }

  /**
   With plain captures the walk is the reachability check: it accepts exactly when everything reachable
   is sound, it has then read all of it, and the receipts it returns are the reachable ones.
   */
  lemma WalkIsReachability(store: Store, from: seq<string>)
    requires CapturesArePlain(store, from)
    ensures var found := Walked(store, from, {}, map[]);
            && (found.Some? <==> AllSound(store, from))
            && (found.Some? ==> forall digest | Reachable(store, from, digest) :: digest in found.value.verified)
            && (found.Some? ==> forall digest :: digest in found.value.receipts <==>
                  Reachable(store, from, digest) && digest in store && store[digest].body.Receipt?)
  {
    AcceptanceExactly(store, from);
    WalkStarts(store, from);
    WalkEstablishes(store, from, from, {}, map[]);
    var found := Walked(store, from, {}, map[]);
    if found.Some? {
      forall digest | Reachable(store, from, digest)
        ensures digest in found.value.verified && (digest in found.value.receipts || Plain(store, digest))
      {
        var path :| Connects(store, path, from, digest);
        StartIsReachable(store, from, path[0]);
        PathIsFollowed(store, from, found.value.verified, found.value.receipts, path);
      }
      forall digest | digest in found.value.receipts
        ensures Reachable(store, from, digest) && digest in store && store[digest].body.Receipt?
      {
        assert Followed(store, from, digest, found.value.verified);
      }
    }
  }

  const OUTER := Artifact(true, 1, Receipt("o", [Capture("i", 1)], []))
  const INNER := Artifact(true, 1, Receipt("i", [], ["gone"]))

  /** A receipt that is also a capture is accepted although the input it names is missing. */
  lemma CapturedReceiptHidesItsInput()
    ensures var store: Store := map["o" := OUTER, "i" := INNER];
            && Walked(store, ["i", "o"], {}, map[]).Some?
            && Reachable(store, ["i", "o"], "gone") && "gone" !in store
            && Walked(store, ["o", "i"], {}, map[]).None?
  {
    var store: Store := map["o" := OUTER, "i" := INNER];
    var marked := ["o"] + DigestsOf(OUTER.body.captures);
    assert DigestsOf(OUTER.body.captures) == ["i"];
    assert marked == ["o", "i"] && "o" == marked[0] && "i" == marked[1];
    assert Sound(store, "o") && Sound(store, "i") && !Sound(store, "gone");
    assert Connects(store, ["i", "gone"], ["i", "o"], "gone");
    var receipts: map<string, Body> := map["o" := OUTER.body];
    assert ["i", "o"][..1] == ["i"] && ["o", "i"][..1] == ["o"];
    assert ["i"] + OUTER.body.inputs == ["i"];
    assert ["i"][..0] == [];
    assert Walked(store, [], {} + Elements(marked), receipts).Some?;
    assert Walked(store, ["i"], {} + Elements(marked), receipts).Some?;
    assert Walked(store, ["i", "o"], {}, map[]) == Walked(store, ["i"], {} + Elements(marked), receipts);
    var own := ["i"] + DigestsOf(INNER.body.captures);
    assert own == ["i"];
    var pending := ["o"] + INNER.body.inputs;
    assert pending == ["o", "gone"];
    assert Walked(store, pending, {} + Elements(own), map["i" := INNER.body]).None?;
    assert Walked(store, ["o", "i"], {}, map[]) == Walked(store, pending, {} + Elements(own), map["i" := INNER.body]);
  }

  // --- The whole projection ------------------------------------------------------------------

  /** `list(dict.fromkeys(references))`: first occurrences, in order. */
  function Unique(texts: seq<string>): (unique: seq<string>)
    ensures forall text :: text in unique <==> text in texts
    ensures forall i, j | 0 <= i < j < |unique| :: unique[i] != unique[j]
  {
    if texts == [] then []
    else
      var before, last := Unique(texts[..|texts| - 1]), texts[|texts| - 1];
      assert texts == texts[..|texts| - 1] + [last];
      if last in before then before else before + [last]
  }

  method CheckStore(store: Store) returns (ok: bool)
    ensures ok <==> Intact(store)
  {
    var pending := store.Keys;
    while pending != {}
      invariant pending <= store.Keys
      invariant forall digest | digest in store && digest !in pending :: store[digest].intact
      decreases |pending|
    {
      var digest :| digest in pending;
      pending := pending - {digest};
      if !store[digest].intact {
        return false;
      }
    }
    return true;
  }

  ghost predicate Intact(store: Store) {
    forall digest | digest in store :: store[digest].intact
  }

  /** The receipts are the reachable ones. */
  ghost predicate ReachableReceipts(store: Store, from: seq<string>, receipts: map<string, Body>) {
    forall digest :: digest in receipts <==>
      Reachable(store, from, digest) && digest in store && store[digest].body.Receipt?
  }

  lemma WalkReadsTheStore(store: Store, from: seq<string>)
    ensures var found := Walked(store, from, {}, map[]); found.Some? ==> found.value.verified <= store.Keys
  {
    WalkStarts(store, from);
    WalkEstablishes(store, from, from, {}, map[]);
  }

  lemma UniqueAcceptsExactly(store: Store, references: seq<string>)
    ensures AllSound(store, references) <==>
            Walked(store, Unique(references), {}, map[]).Some? && CapturedAreSound(store, references)
  {
    SameReach(store, references, Unique(references));
    AcceptanceExactly(store, Unique(references));
  }

  lemma UniqueReceipts(store: Store, references: seq<string>)
    requires CapturesArePlain(store, references)
    ensures var found := Walked(store, Unique(references), {}, map[]);
            found.Some? ==> ReachableReceipts(store, references, found.value.receipts)
  {
    SameReach(store, references, Unique(references));
    WalkIsReachability(store, Unique(references));
  }

  /** Another store of the campaign, with the digests bound to it. */
  datatype BoundStore = BoundStore(store: Store, digests: set<string>)

  ghost predicate Holds(bound: BoundStore) {
    Intact(bound.store) && bound.digests <= bound.store.Keys
  }

  method CheckBoundStores(stores: map<string, BoundStore>) returns (ok: bool)
    ensures ok <==> forall key | key in stores :: Holds(stores[key])
  {
    var pending := stores.Keys;
    while pending != {}
      invariant pending <= stores.Keys
      invariant forall key | key in stores && key !in pending :: Holds(stores[key])
      decreases |pending|
    {
      var key :| key in pending;
      pending := pending - {key};
      var intact := CheckStore(stores[key].store);
      if !intact || !(stores[key].digests <= stores[key].store.Keys) {
        return false;
      }
    }
    return true;
  }

  /**
   `project`: the walk from the references, a sweep over the whole store, and one over the campaign's
   other stores. What it reports as verified is the store, and with sound captured receipts it accepts
   exactly when everything reachable is sound and every store is intact.
   */
  method Project(store: Store, references: seq<string>, stores: map<string, BoundStore>)
    returns (result: Option<Projection>)
    ensures result.Some? ==> result.value.verified == store.Keys
    ensures result.Some? ==> Intact(store) && forall key | key in stores :: Holds(stores[key])
    ensures AllSound(store, references) && Intact(store) && (forall key | key in stores :: Holds(stores[key])) <==>
            result.Some? && CapturedAreSound(store, references)
    ensures result.Some? && CapturesArePlain(store, references) ==>
              ReachableReceipts(store, references, result.value.receipts)
  {
    UniqueAcceptsExactly(store, references);
    var found := Walk(store, Unique(references));
    if found.None? {
      return None;
    }
    var intact := CheckStore(store);
    if !intact {
      return None;
    }
    var bound := CheckBoundStores(stores);
    if !bound {
      return None;
    }
    WalkReadsTheStore(store, Unique(references));
    if CapturesArePlain(store, references) {
      UniqueReceipts(store, references);
    }
    return Some(Projection(found.value.verified + store.Keys, found.value.receipts));
  }

  /** Only which digests are references matters for what is reachable. */
  lemma SameReach(store: Store, a: seq<string>, b: seq<string>)
    requires forall text :: text in a <==> text in b
    ensures forall digest :: Reachable(store, a, digest) <==> Reachable(store, b, digest)
    ensures forall digest :: Captured(store, a, digest) <==> Captured(store, b, digest)
    ensures AllSound(store, a) <==> AllSound(store, b)
    ensures CapturedAreSound(store, a) <==> CapturedAreSound(store, b)
    ensures CapturesArePlain(store, a) <==> CapturesArePlain(store, b)
  {
    ReachIsMonotone(store, a, b);
    ReachIsMonotone(store, b, a);
    CaptureIsMonotone(store, a, b);
    CaptureIsMonotone(store, b, a);
  }

  lemma ReachIsMonotone(store: Store, a: seq<string>, b: seq<string>)
    requires forall text | text in a :: text in b
    ensures forall digest | Reachable(store, a, digest) :: Reachable(store, b, digest)
  {
    forall digest | Reachable(store, a, digest) ensures Reachable(store, b, digest) {
      var path :| Connects(store, path, a, digest);
      assert Connects(store, path, b, digest);
    }
  }

  lemma CaptureIsMonotone(store: Store, a: seq<string>, b: seq<string>)
    requires forall text | text in a :: text in b
    ensures forall digest | Captured(store, a, digest) :: Captured(store, b, digest)
  {
    ReachIsMonotone(store, a, b);
    forall digest | Captured(store, a, digest) ensures Captured(store, b, digest) {
      var receipt, i :| Captures(store, a, receipt, i, digest);
      assert Captures(store, b, receipt, i, digest);
    }
  }
}
