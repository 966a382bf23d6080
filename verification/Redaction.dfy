/**
 Payload redaction before logging (src/security/redaction.util.ts).

 The input is a graph of arrays and objects, possibly shared and cyclic: a finite map from object
 identities to their contents. The output is built afresh, so it is a tree. Strings are sequences
 of characters, of which the ellipsis is one.
 */
module Redaction {
  import opened Common

  type Ref = nat

  datatype Value =
    | Null | Undefined | Str(s: string) | Num(n: real) | Bool(b: bool) | BigInt(i: int)
    | Function | Symbol | Obj(ref: Ref)

  /** An array, or an object with its own enumerable keys in order. */
  datatype Node = Array(items: seq<Value>) | Object(fields: seq<(string, Value)>)

  type Heap = map<Ref, Node>

  datatype Tree =
    | TNull | TUndefined | TStr(s: string) | TNum(n: real) | TBool(b: bool) | TBigInt(i: int)
    | TArray(items: seq<Tree>) | TObject(fields: seq<(string, Tree)>)

  datatype Config = Config(keys: set<string>, maxLength: int, placeholder: string)

  datatype Options = Options(
    maxStringLength: Option<int>, extraRedactedKeys: Option<set<string>>, redactionPlaceholder: Option<string>)

  const REDACTED_KEYS: set<string> := {
    "sdp", "iceCandidates", "candidate", "password", "token", "authorization", "auth", "jwt",
    "bearer", "secret", "apiKey", "api_key", "ice", "fingerprint"}
  const DEFAULT_MAX_STRING_LENGTH := 256
  const CIRCULAR := "[CIRCULAR]"
  const ELLIPSIS: string := "\U{2026}"

  function Resolve(o: Options): Config {
    Config(
      if o.extraRedactedKeys.Some? then REDACTED_KEYS + o.extraRedactedKeys.value else REDACTED_KEYS,
      if o.maxStringLength.Some? then o.maxStringLength.value else DEFAULT_MAX_STRING_LENGTH,
      if o.redactionPlaceholder.Some? then o.redactionPlaceholder.value else "[REDACTED]")
  }

  function Truncate(s: string, maxLength: int): (r: string)
    ensures |s| <= maxLength ==> r == s
    ensures |s| > maxLength ==> |r| == MaxInt(1, maxLength) && r[|r| - 1..] == "\U{2026}" && r[..|r| - 1] <= s
  {
    if |s| <= maxLength then s else s[..MaxInt(0, maxLength - |ELLIPSIS|)] + ELLIPSIS
  }

  // ---- graphs ----

  predicate ValueIn(h: Heap, v: Value) { v.Obj? ==> v.ref in h }

  predicate NodeIn(h: Heap, n: Node) {
    match n
    case Array(items) => forall i :: 0 <= i < |items| ==> ValueIn(h, items[i])
    case Object(fields) =>
      && (forall i :: 0 <= i < |fields| ==> ValueIn(h, fields[i].1))
      && (forall i, j :: 0 <= i < j < |fields| ==> fields[i].0 != fields[j].0)
  }

  /** Every reference leads somewhere, and an object has each key once. */
  predicate Closed(h: Heap) {
    forall r :: r in h ==> NodeIn(h, h[r])
  }

  // ---------------------------------------------------------------------------------------
  // The walk
  // ---------------------------------------------------------------------------------------

  /** The tree that `walk` builds for a value reached through the objects in `seen`. */
  function Walked(h: Heap, cfg: Config, v: Value, seen: set<Ref>): Tree
    requires Closed(h) && ValueIn(h, v)
    decreases h.Keys - seen
  {
    match v
    case Null => TNull
    case Undefined | Function | Symbol => TUndefined
    case Str(s) => TStr(Truncate(s, cfg.maxLength))
    case Num(n) => TNum(n)
    case Bool(b) => TBool(b)
    case BigInt(i) => TBigInt(i)
    case Obj(r) =>
      if r in seen then TStr(CIRCULAR)
      else
        assert NodeIn(h, h[r]);
        match h[r]
        case Array(items) =>
          TArray(seq(|items|, i requires 0 <= i < |items| => Walked(h, cfg, items[i], seen + {r})))
        case Object(fields) =>
          TObject(seq(|fields|, i requires 0 <= i < |fields| =>
            (fields[i].0,
             if fields[i].0 in cfg.keys then TStr(cfg.placeholder)
             else Walked(h, cfg, fields[i].1, seen + {r}))))
  }

  class Walker {
    const heap: Heap
    const cfg: Config
    var seen: set<Ref>

    constructor (heap: Heap, cfg: Config)
      ensures this.heap == heap && this.cfg == cfg && seen == {}
    {
      this.heap, this.cfg, seen := heap, cfg, {};
    }

    /** Marks an object while its contents are walked, and unmarks it on the way out. */
    method Walk(value: Value) returns (t: Tree)
      requires Closed(heap) && ValueIn(heap, value)
      modifies this
      ensures seen == old(seen)
      ensures t == Walked(heap, cfg, value, old(seen))
      decreases heap.Keys - seen, 1
    {
      match value {
        case Null => return TNull;
        case Undefined => return TUndefined;
        case Str(s) => return TStr(Truncate(s, cfg.maxLength));
        case Num(n) => return TNum(n);
        case Bool(b) => return TBool(b);
        case BigInt(i) => return TBigInt(i);
        case Function => return TUndefined;
        case Symbol => return TUndefined;
        case Obj(ref) =>
          if ref in seen { return TStr(CIRCULAR); }
          assert NodeIn(heap, heap[ref]);
          ghost var was := seen;
          seen := seen + {ref};
          match heap[ref] {
            case Array(items) =>
              var out := WalkItems(items);
              t := TArray(out);
            case Object(fields) =>
              var out := WalkFields(fields);
              t := TObject(out);
          }
          seen := seen - {ref};
          assert seen == was;
      }
    }

    method WalkItems(items: seq<Value>) returns (out: seq<Tree>)
      requires Closed(heap) && NodeIn(heap, Array(items))
      modifies this
      ensures seen == old(seen)
      ensures out == seq(|items|, i requires 0 <= i < |items| => Walked(heap, cfg, items[i], old(seen)))
      decreases heap.Keys - seen, 2
    {
      out := [];
      for i := 0 to |items|
        invariant seen == old(seen) && |out| == i
        invariant forall k :: 0 <= k < i ==> out[k] == Walked(heap, cfg, items[k], old(seen))
      {
        var t := Walk(items[i]);
        out := out + [t];
      }
    }

    method WalkFields(fields: seq<(string, Value)>) returns (out: seq<(string, Tree)>)
      requires Closed(heap) && NodeIn(heap, Object(fields))
      modifies this
      ensures seen == old(seen)
      ensures out == seq(|fields|, i requires 0 <= i < |fields| =>
                (fields[i].0, if fields[i].0 in cfg.keys then TStr(cfg.placeholder)
                              else Walked(heap, cfg, fields[i].1, old(seen))))
      decreases heap.Keys - seen, 2
    {
      out := [];
      for i := 0 to |fields|
        invariant seen == old(seen) && |out| == i
        invariant forall k :: 0 <= k < i ==>
                    out[k] == (fields[k].0, if fields[k].0 in cfg.keys then TStr(cfg.placeholder)
                                            else Walked(heap, cfg, fields[k].1, old(seen)))
      {
        var key := fields[i].0;
        if key in cfg.keys {
          out := out + [(key, TStr(cfg.placeholder))];
        } else {
          var t := Walk(fields[i].1);
          out := out + [(key, t)];
        }
      }
    }
  }

  // ---------------------------------------------------------------------------------------
  // What the output shows at every path
  // ---------------------------------------------------------------------------------------

  /** One step down from an array or an object. */
  datatype Step = At(index: nat) | Field(key: string)

  /** The position of a key, or -1. */
  function KeyIndex<T>(fields: seq<(string, T)>, key: string): (i: int)
    ensures -1 <= i < |fields|
    ensures i >= 0 ==> fields[i].0 == key
    ensures i < 0 ==> forall k :: 0 <= k < |fields| ==> fields[k].0 != key
  {
    if fields == [] then -1
    else if fields[0].0 == key then 0
    else
      var i := KeyIndex(fields[1..], key);
      if i < 0 then -1 else i + 1
  }

  function Child(t: Tree, step: Step): Option<Tree> {
    match (t, step)
    case (TArray(items), At(i)) => if i < |items| then Some(items[i]) else None
    case (TObject(fields), Field(k)) =>
      var i := KeyIndex(fields, k);
      if i >= 0 then Some(fields[i].1) else None
    case _ => None
  }

  function Descendant(t: Tree, path: seq<Step>): Option<Tree> {
    if path == [] then Some(t)
    else match Child(t, path[0]) case None => None case Some(c) => Descendant(c, path[1..])
  }

  /** What can be seen of a tree without descending. */
  datatype Head =
    | HNull | HUndefined | HStr(s: string) | HNum(n: real) | HBool(b: bool) | HBigInt(i: int)
    | HArray(length: nat) | HObject(keys: seq<string>)

  function Keys<T>(fields: seq<(string, T)>): seq<string> {
    seq(|fields|, i requires 0 <= i < |fields| => fields[i].0)
  }

  function HeadOf(t: Tree): Head {
    match t
    case TNull => HNull
    case TUndefined => HUndefined
    case TStr(s) => HStr(s)
    case TNum(n) => HNum(n)
    case TBool(b) => HBool(b)
    case TBigInt(i) => HBigInt(i)
    case TArray(items) => HArray(|items|)
    case TObject(fields) => HObject(Keys(fields))
  }

  /** A place in the graph: a value, the objects above it, and whether its key is redacted. */
  datatype Spot = Spot(v: Value, above: set<Ref>, redacted: bool)

  /**
   One step in the graph itself. There is no way down from a redacted field, nor from an object
   that is already its own ancestor; otherwise the objects passed are remembered.
   */
  function StepDown(h: Heap, cfg: Config, spot: Spot, step: Step): (next: Option<Spot>)
    requires Closed(h) && ValueIn(h, spot.v)
    ensures next.Some? ==> ValueIn(h, next.value.v)
  {
    if spot.redacted || !spot.v.Obj? || spot.v.ref in spot.above then None
    else
      var above := spot.above + {spot.v.ref};
      assert NodeIn(h, h[spot.v.ref]);
      match (h[spot.v.ref], step)
      case (Array(items), At(i)) => if i < |items| then Some(Spot(items[i], above, false)) else None
      case (Object(fields), Field(k)) =>
        var i := KeyIndex(fields, k);
        if i >= 0 then Some(Spot(fields[i].1, above, k in cfg.keys)) else None
      case _ => None
  }

  function Reached(h: Heap, cfg: Config, spot: Spot, path: seq<Step>): Option<Spot>
    requires Closed(h) && ValueIn(h, spot.v)
    decreases |path|
  {
    if path == [] then Some(spot)
    else match StepDown(h, cfg, spot, path[0]) case None => None case Some(next) => Reached(h, cfg, next, path[1..])
  }

  /** What the output has to show for a place in the graph. */
  function Shown(h: Heap, cfg: Config, spot: Spot): Head
    requires Closed(h) && ValueIn(h, spot.v)
  {
    if spot.redacted then HStr(cfg.placeholder)
    else
      match spot.v
      case Null => HNull
      case Undefined | Function | Symbol => HUndefined
      case Str(s) => HStr(Truncate(s, cfg.maxLength))
      case Num(n) => HNum(n)
      case Bool(b) => HBool(b)
      case BigInt(i) => HBigInt(i)
      case Obj(r) =>
        if r in spot.above then HStr(CIRCULAR)
        else match h[r] case Array(items) => HArray(|items|) case Object(fields) => HObject(Keys(fields))
  }

  /** The output subtree for a place in the graph. */
  function Image(h: Heap, cfg: Config, spot: Spot): Tree
    requires Closed(h) && ValueIn(h, spot.v)
  {
    if spot.redacted then TStr(cfg.placeholder) else Walked(h, cfg, spot.v, spot.above)
  }

  lemma HeadOfImage(h: Heap, cfg: Config, spot: Spot)
    requires Closed(h) && ValueIn(h, spot.v)
    ensures HeadOf(Image(h, cfg, spot)) == Shown(h, cfg, spot)
  {
    if !spot.redacted && spot.v.Obj? && spot.v.ref !in spot.above && h[spot.v.ref].Object? {
      var t := Image(h, cfg, spot);
      assert Keys(t.fields) == Keys(h[spot.v.ref].fields);
    }
  }

  lemma {:induction false} KeyIndexSame<A, B>(xs: seq<(string, A)>, ys: seq<(string, B)>, key: string)
    requires |xs| == |ys| && forall i :: 0 <= i < |xs| ==> xs[i].0 == ys[i].0
    ensures KeyIndex(xs, key) == KeyIndex(ys, key)
  {
    if xs != [] && xs[0].0 != key { KeyIndexSame(xs[1..], ys[1..], key); }
  }

  lemma ChildOfImage(h: Heap, cfg: Config, spot: Spot, step: Step)
    requires Closed(h) && ValueIn(h, spot.v)
    ensures
      Child(Image(h, cfg, spot), step)
      == match StepDown(h, cfg, spot, step) case None => None case Some(next) => Some(Image(h, cfg, next))
  {
    if !spot.redacted && spot.v.Obj? && spot.v.ref !in spot.above {
      assert NodeIn(h, h[spot.v.ref]);
      if h[spot.v.ref].Object? && step.Field? {
        KeyIndexSame(h[spot.v.ref].fields, Image(h, cfg, spot).fields, step.key);
      }
    }
  }

  /** A place in the output shows a place in the graph, or there is neither. */
  predicate Mirrors(found: Option<Tree>, h: Heap, cfg: Config, reached: Option<Spot>)
    requires Closed(h)
  {
    var ok :=
      match found
      case None => reached.None?
      case Some(t) => reached.Some? && ValueIn(h, reached.value.v) && HeadOf(t) == Shown(h, cfg, reached.value);
    ok
  }

  lemma {:induction false} ImageAlongPath(h: Heap, cfg: Config, spot: Spot, path: seq<Step>)
    requires Closed(h) && ValueIn(h, spot.v)
    ensures Mirrors(Descendant(Image(h, cfg, spot), path), h, cfg, Reached(h, cfg, spot, path))
    decreases |path|
  {
    if path == [] {
      HeadOfImage(h, cfg, spot);
    } else {
      ChildOfImage(h, cfg, spot, path[0]);
      match StepDown(h, cfg, spot, path[0]) {
        case None =>
        case Some(next) => ImageAlongPath(h, cfg, next, path[1..]);
      }
    }
  }

  /**
   The output is the graph's unfolding: a path exists in the output exactly when it can be followed
   in the graph without passing a redacted key or an object that is its own ancestor, and what is
   seen at its end is what the graph has there, with '[CIRCULAR]' exactly for an object that is its
   own ancestor and the placeholder exactly for a redacted key. Sharing without a cycle is unfolded.
   */
  lemma OutputIsUnfolding(h: Heap, cfg: Config, v: Value, path: seq<Step>)
    requires Closed(h) && ValueIn(h, v)
    ensures Mirrors(Descendant(Walked(h, cfg, v, {}), path), h, cfg, Reached(h, cfg, Spot(v, {}, false), path))
  {
    assert Walked(h, cfg, v, {}) == Image(h, cfg, Spot(v, {}, false));
    ImageAlongPath(h, cfg, Spot(v, {}, false), path);
  }

  predicate SameAt(t: Tree, u: Tree, path: seq<Step>) {
    match (Descendant(t, path), Descendant(u, path))
    case (None, None) => true
    case (Some(a), Some(b)) => HeadOf(a) == HeadOf(b)
    case _ => false
  }

  predicate DistinctKeys(fields: seq<(string, Tree)>) {
    forall i, j :: 0 <= i < j < |fields| ==> fields[i].0 != fields[j].0
  }

  /** Objects have each key once, at every depth. */
  predicate ProperTree(t: Tree) {
    var ok :=
      match t
      case TArray(items) => forall i :: 0 <= i < |items| ==> ProperTree(items[i])
      case TObject(fields) => DistinctKeys(fields) && forall i :: 0 <= i < |fields| ==> ProperTree(fields[i].1)
      case _ => true;
    ok
  }

  lemma ChildrenSame(t: Tree, u: Tree, step: Step, path: seq<Step>)
    requires SameAt(t, u, [step] + path) && Child(t, step).Some? && Child(u, step).Some?
    ensures SameAt(Child(t, step).value, Child(u, step).value, path)
  {
    assert ([step] + path)[1..] == path;
  }

  /** Nothing else can be meant: a tree is determined by what is seen at its paths. */
  lemma {:induction false} HeadsDetermineTree(t: Tree, u: Tree)
    requires ProperTree(t) && ProperTree(u) && forall path :: SameAt(t, u, path)
    ensures t == u
    decreases t
  {
    assert SameAt(t, u, []);
    match t
    case TArray(items) =>
      forall i | 0 <= i < |items| ensures items[i] == u.items[i] {
        forall path ensures SameAt(items[i], u.items[i], path) { ChildrenSame(t, u, At(i), path); }
        HeadsDetermineTree(items[i], u.items[i]);
      }
    case TObject(fields) =>
      assert |Keys(fields)| == |Keys(u.fields)|;
      forall i | 0 <= i < |fields| ensures fields[i] == u.fields[i] {
        assert fields[i].0 == Keys(fields)[i] == Keys(u.fields)[i] == u.fields[i].0;
        var k := KeyIndex(fields, fields[i].0);
        var k' := KeyIndex(u.fields, fields[i].0);
        assert k == i && k' == i;
        forall path ensures SameAt(fields[i].1, u.fields[i].1, path) { ChildrenSame(t, u, Field(fields[i].0), path); }
        HeadsDetermineTree(fields[i].1, u.fields[i].1);
      }
    case _ =>
  }

  lemma {:induction false} WalkedIsProper(h: Heap, cfg: Config, v: Value, seen: set<Ref>)
    requires Closed(h) && ValueIn(h, v)
    ensures ProperTree(Walked(h, cfg, v, seen))
    decreases h.Keys - seen
  {
    if v.Obj? && v.ref !in seen {
      assert NodeIn(h, h[v.ref]);
      var t := Walked(h, cfg, v, seen);
      match h[v.ref] {
        case Array(items) =>
          forall i | 0 <= i < |items| ensures ProperTree(t.items[i]) {
            WalkedIsProper(h, cfg, items[i], seen + {v.ref});
          }
        case Object(fields) =>
          forall i | 0 <= i < |fields| ensures ProperTree(t.fields[i].1) {
            if fields[i].0 !in cfg.keys { WalkedIsProper(h, cfg, fields[i].1, seen + {v.ref}); }
          }
          assert forall i :: 0 <= i < |fields| ==> t.fields[i].0 == fields[i].0;
      }
    }
  }

  /** At one path the tree shows what the graph has there, or neither goes that far. */
  predicate ShowsGraph(t: Tree, h: Heap, cfg: Config, v: Value, path: seq<Step>)
    requires Closed(h) && ValueIn(h, v)
  {
    Mirrors(Descendant(t, path), h, cfg, Reached(h, cfg, Spot(v, {}, false), path))
  }

  lemma BothShow(t: Tree, u: Tree, h: Heap, cfg: Config, v: Value, path: seq<Step>)
    requires Closed(h) && ValueIn(h, v) && ShowsGraph(t, h, cfg, v, path) && ShowsGraph(u, h, cfg, v, path)
    ensures SameAt(t, u, path)
  {
  }

  /**
   The walk is characterised by what it shows: its output is the one tree with distinct keys that
   shows the graph at every path.
   */
  lemma WalkIsTheUnfolding(h: Heap, cfg: Config, v: Value, t: Tree)
    requires Closed(h) && ValueIn(h, v)
    ensures t == Walked(h, cfg, v, {}) <==> ProperTree(t) && forall path :: ShowsGraph(t, h, cfg, v, path)
  {
    var out := Walked(h, cfg, v, {});
    WalkedIsProper(h, cfg, v, {});
    forall path ensures ShowsGraph(out, h, cfg, v, path) { OutputIsUnfolding(h, cfg, v, path); }
    if ProperTree(t) && forall path :: ShowsGraph(t, h, cfg, v, path) {
      forall path ensures SameAt(t, out, path) { BothShow(t, out, h, cfg, v, path); }
      HeadsDetermineTree(t, out);
    }
  }

  // ---------------------------------------------------------------------------------------
  // Clean output, and nothing leaks
  // ---------------------------------------------------------------------------------------

  /** Redacted keys show the placeholder at every depth; other strings are short or the cycle marker. */
  predicate Clean(t: Tree, cfg: Config) {
    match t
    case TStr(s) => |s| <= MaxInt(1, cfg.maxLength) || s == CIRCULAR
    case TArray(items) => forall i :: 0 <= i < |items| ==> Clean(items[i], cfg)
    case TObject(fields) => forall i :: 0 <= i < |fields| ==>
        if fields[i].0 in cfg.keys then fields[i].1 == TStr(cfg.placeholder) else Clean(fields[i].1, cfg)
    case _ => true
  }

  lemma {:induction false} OutputIsClean(h: Heap, cfg: Config, v: Value, seen: set<Ref>)
    requires Closed(h) && ValueIn(h, v)
    ensures Clean(Walked(h, cfg, v, seen), cfg)
    decreases h.Keys - seen
  {
    if v.Obj? && v.ref !in seen {
      assert NodeIn(h, h[v.ref]);
      var t := Walked(h, cfg, v, seen);
      match h[v.ref] {
        case Array(items) =>
          forall i | 0 <= i < |items| ensures Clean(t.items[i], cfg) {
            OutputIsClean(h, cfg, items[i], seen + {v.ref});
          }
        case Object(fields) =>
          forall i | 0 <= i < |fields|
            ensures if t.fields[i].0 in cfg.keys then t.fields[i].1 == TStr(cfg.placeholder)
                    else Clean(t.fields[i].1, cfg)
          {
            if fields[i].0 !in cfg.keys { OutputIsClean(h, cfg, fields[i].1, seen + {v.ref}); }
          }
      }
    }
  }

  predicate SameButForSecrets(n: Node, n': Node, keys: set<string>) {
    match (n, n')
    case (Array(items), Array(items')) => items == items'
    case (Object(fields), Object(fields')) =>
      && Keys(fields) == Keys(fields')
      && forall i :: 0 <= i < |fields| && i < |fields'| && fields[i].0 !in keys ==> fields[i] == fields'[i]
    case _ => false
  }

  /** Two graphs that differ at most in what their redacted keys hold. */
  predicate DifferInSecrets(h: Heap, h': Heap, keys: set<string>) {
    h.Keys == h'.Keys && forall r :: r in h && r in h' ==> SameButForSecrets(h[r], h'[r], keys)
  }

  /** What redacted keys hold has no influence on the output. */
  lemma {:induction false} SecretsDoNotLeak(h: Heap, h': Heap, cfg: Config, v: Value, seen: set<Ref>)
    requires Closed(h) && Closed(h') && ValueIn(h, v) && DifferInSecrets(h, h', cfg.keys)
    ensures Walked(h, cfg, v, seen) == Walked(h', cfg, v, seen)
    decreases h.Keys - seen
  {
    if v.Obj? && v.ref !in seen {
      var r := v.ref;
      assert NodeIn(h, h[r]) && NodeIn(h', h'[r]) && SameButForSecrets(h[r], h'[r], cfg.keys);
      var t, t' := Walked(h, cfg, v, seen), Walked(h', cfg, v, seen);
      match h[r] {
        case Array(items) =>
          forall i | 0 <= i < |items| ensures t.items[i] == t'.items[i] {
            SecretsDoNotLeak(h, h', cfg, items[i], seen + {r});
          }
          assert t.items == t'.items;
        case Object(fields) =>
          assert |fields| == |Keys(fields)| == |Keys(h'[r].fields)|;
          forall i | 0 <= i < |fields| ensures t.fields[i] == t'.fields[i] {
            assert fields[i].0 == Keys(fields)[i] == Keys(h'[r].fields)[i];
            if fields[i].0 !in cfg.keys { SecretsDoNotLeak(h, h', cfg, fields[i].1, seen + {r}); }
          }
          assert t.fields == t'.fields;
      }
    }
  }

  // ---------------------------------------------------------------------------------------
  // What the options mean
  // ---------------------------------------------------------------------------------------

  /** The keys that are hidden: the built-in ones, and those that the caller adds. */
  predicate IsHidden(key: string, o: Options) {
    || key in {"sdp", "iceCandidates", "candidate", "password", "token", "authorization", "auth", "jwt",
               "bearer", "secret", "apiKey", "api_key", "ice", "fingerprint"}
    || (o.extraRedactedKeys.Some? && key in o.extraRedactedKeys.value)
  }

  /** What shows in the place of a hidden value, and how long other strings may be. */
  function PlaceholderOf(o: Options): string {
    match o.redactionPlaceholder case Some(p) => p case None => "[REDACTED]"
  }

  function LimitOf(o: Options): int { match o.maxStringLength case Some(n) => n case None => 256 }

  /** A configuration that means what the options say. */
  ghost predicate Means(cfg: Config, o: Options) {
    && (forall key :: key in cfg.keys <==> IsHidden(key, o))
    && cfg.placeholder == PlaceholderOf(o) && cfg.maxLength == LimitOf(o)
  }

  lemma ResolveMeans(o: Options)
    ensures Means(Resolve(o), o)
  {
  }

  /**
   At every depth a hidden key shows the placeholder, and every string elsewhere is within the limit
   (or a single character), or is the cycle marker.
   */
  predicate Hides(t: Tree, o: Options) {
    match t
    case TStr(s) => |s| <= MaxInt(1, LimitOf(o)) || s == "[CIRCULAR]"
    case TArray(items) => forall i :: 0 <= i < |items| ==> Hides(items[i], o)
    case TObject(fields) => forall i :: 0 <= i < |fields| ==>
        if IsHidden(fields[i].0, o) then fields[i].1 == TStr(PlaceholderOf(o)) else Hides(fields[i].1, o)
    case _ => true
  }

  lemma {:induction false} CleanHides(t: Tree, cfg: Config, o: Options)
    requires Means(cfg, o) && Clean(t, cfg)
    ensures Hides(t, o)
  {
    match t
    case TArray(items) =>
      forall i | 0 <= i < |items| ensures Hides(items[i], o) { CleanHides(items[i], cfg, o); }
    case TObject(fields) =>
      forall i | 0 <= i < |fields| && !IsHidden(fields[i].0, o) ensures Hides(fields[i].1, o) {
        CleanHides(fields[i].1, cfg, o);
      }
    case _ =>
  }

  lemma MeaningIsUnique(cfg: Config, cfg': Config, o: Options)
    requires Means(cfg, o) && Means(cfg', o)
    ensures cfg == cfg'
  {
    assert forall key :: key in cfg.keys <==> key in cfg'.keys;
  }

  /**
   The output hides what the options say, and it is the walk under the one configuration that means
   what they say: so it shows everything else as the graph has it.
   */
  method RedactPayload(heap: Heap, payload: Value, options: Options) returns (t: Tree)
    requires Closed(heap) && ValueIn(heap, payload)
    ensures Hides(t, options)
    ensures forall cfg :: Means(cfg, options) ==> t == Walked(heap, cfg, payload, {})
  {
    var walker := new Walker(heap, Resolve(options));
    t := walker.Walk(payload);
    ResolveMeans(options);
    OutputIsClean(heap, Resolve(options), payload, {});
    CleanHides(t, Resolve(options), options);
    forall cfg | Means(cfg, options) ensures cfg == Resolve(options) {
      MeaningIsUnique(cfg, Resolve(options), options);
    }
  }

  // ---------------------------------------------------------------------------------------
  // Redacting again
  // ---------------------------------------------------------------------------------------

  /** A value in a graph looks like a tree, however its parts are shared. */
  predicate Represents(h: Heap, v: Value, t: Tree)
    decreases t
  {
    var ok :=
      match t
      case TNull => v == Null
      case TUndefined => v == Undefined
      case TStr(s) => v == Str(s)
      case TNum(n) => v == Num(n)
      case TBool(b) => v == Bool(b)
      case TBigInt(i) => v == BigInt(i)
      case TArray(ts) =>
        v.Obj? && v.ref in h && h[v.ref].Array? && |h[v.ref].items| == |ts|
        && forall i :: 0 <= i < |ts| ==> Represents(h, h[v.ref].items[i], ts[i])
      case TObject(fs) =>
        v.Obj? && v.ref in h && h[v.ref].Object? && |h[v.ref].fields| == |fs|
        && forall i :: 0 <= i < |fs| ==>
             h[v.ref].fields[i].0 == fs[i].0 && Represents(h, h[v.ref].fields[i].1, fs[i].1);
    ok
  }

  predicate Pictures(h: Heap, v: Value, t: Tree) {
    var ok := ValueIn(h, v) && Represents(h, v, t);
    ok
  }

  predicate PicturesAll(h: Heap, vs: seq<Value>, ts: seq<Tree>) {
    var ok := |vs| == |ts| && forall i :: 0 <= i < |ts| ==> Pictures(h, vs[i], ts[i]);
    ok
  }

  /** A graph that has grown by a tree. */
  predicate LaidOut(h: Heap, base: Heap, v: Value, t: Tree) {
    var ok := Grows(h, base) && Pictures(h, v, t);
    ok
  }

  /** The field of a graph looks like the field of a tree. */
  predicate PicturesField(h: Heap, field: (string, Value), f: (string, Tree)) {
    var ok := field.0 == f.0 && Pictures(h, field.1, f.1);
    ok
  }

  predicate PicturesFields(h: Heap, fields: seq<(string, Value)>, fs: seq<(string, Tree)>) {
    var ok := |fields| == |fs| && forall i :: 0 <= i < |fs| ==> PicturesField(h, fields[i], fs[i]);
    ok
  }

  function Height(t: Tree): nat {
    match t
    case TArray(ts) => 1 + MaxHeight(ts)
    case TObject(fs) => 1 + MaxFieldHeight(fs)
    case _ => 0
  }

  function MaxHeight(ts: seq<Tree>): (m: nat)
    ensures forall i :: 0 <= i < |ts| ==> Height(ts[i]) <= m
  {
    if ts == [] then 0 else
    var rest := MaxHeight(ts[1..]);
    assert forall i :: 0 < i < |ts| ==> ts[i] == ts[1..][i - 1];
    MaxInt(Height(ts[0]), rest)
  }

  function FieldHeight(f: (string, Tree)): nat { Height(f.1) }

  function MaxFieldHeight(fs: seq<(string, Tree)>): (m: nat)
    ensures forall i :: 0 <= i < |fs| ==> FieldHeight(fs[i]) <= m
  {
    if fs == [] then 0 else
    var rest := MaxFieldHeight(fs[1..]);
    assert forall i :: 0 < i < |fs| ==> fs[i] == fs[1..][i - 1];
    MaxInt(FieldHeight(fs[0]), rest)
  }

  lemma {:induction false} RepresentedTreeIsUnique(h: Heap, v: Value, t: Tree, u: Tree)
    requires Represents(h, v, t) && Represents(h, v, u)
    ensures t == u
    decreases t
  {
    match t
    case TArray(ts) =>
      forall i | 0 <= i < |ts| ensures ts[i] == u.items[i] {
        RepresentedTreeIsUnique(h, h[v.ref].items[i], ts[i], u.items[i]);
      }
    case TObject(fs) =>
      forall i | 0 <= i < |fs| ensures fs[i] == u.fields[i] {
        RepresentedTreeIsUnique(h, h[v.ref].fields[i].1, fs[i].1, u.fields[i].1);
      }
    case _ =>
  }

  /** Everything in `seen` is the root of a tree higher than `n`. */
  ghost predicate AllHigher(h: Heap, seen: set<Ref>, n: nat) {
    forall r, t :: r in seen && Represents(h, Obj(r), t) ==> Height(t) > n
  }

  lemma DescendKeepsHigher(h: Heap, seen: set<Ref>, r: Ref, t: Tree, n: nat)
    requires AllHigher(h, seen, Height(t)) && Represents(h, Obj(r), t) && n < Height(t)
    ensures r !in seen && AllHigher(h, seen + {r}, n)
  {
    forall r', u | r' in seen + {r} && Represents(h, Obj(r'), u) ensures Height(u) > n {
      if r' == r { RepresentedTreeIsUnique(h, Obj(r), t, u); }
    }
  }

  /** Redacted keys show the placeholder, and every other string survives the length limit. */
  predicate Stable(t: Tree, cfg: Config) {
    match t
    case TStr(s) => Truncate(s, cfg.maxLength) == s
    case TArray(items) => forall i :: 0 <= i < |items| ==> Stable(items[i], cfg)
    case TObject(fields) => forall i :: 0 <= i < |fields| ==>
        if fields[i].0 in cfg.keys then fields[i].1 == TStr(cfg.placeholder) else Stable(fields[i].1, cfg)
    case _ => true
  }

  /** Walking a tree, however it is laid out and shared in memory, returns it if and only if it is stable. */
  lemma {:induction false} TreeIsKeptIff(h: Heap, cfg: Config, v: Value, t: Tree, seen: set<Ref>)
    requires Closed(h) && ValueIn(h, v) && Represents(h, v, t) && AllHigher(h, seen, Height(t))
    ensures Walked(h, cfg, v, seen) == t <==> Stable(t, cfg)
    decreases t
  {
    match t
    case TArray(ts) =>
      assert NodeIn(h, h[v.ref]);
      assert v.ref !in seen by { DescendKeepsHigher(h, seen, v.ref, t, 0); }
      var out := Walked(h, cfg, v, seen).items;
      forall i | 0 <= i < |ts| ensures out[i] == ts[i] <==> Stable(ts[i], cfg) {
        DescendKeepsHigher(h, seen, v.ref, t, Height(ts[i]));
        TreeIsKeptIff(h, cfg, h[v.ref].items[i], ts[i], seen + {v.ref});
      }
      assert out == ts <==> forall i :: 0 <= i < |ts| ==> out[i] == ts[i];
    case TObject(fs) =>
      assert NodeIn(h, h[v.ref]);
      assert v.ref !in seen by { DescendKeepsHigher(h, seen, v.ref, t, 0); }
      var out := Walked(h, cfg, v, seen).fields;
      forall i | 0 <= i < |fs|
        ensures out[i] == fs[i]
           <==> if fs[i].0 in cfg.keys then fs[i].1 == TStr(cfg.placeholder) else Stable(fs[i].1, cfg)
      {
        if fs[i].0 !in cfg.keys {
          assert FieldHeight(fs[i]) < Height(t);
          DescendKeepsHigher(h, seen, v.ref, t, Height(fs[i].1));
          TreeIsKeptIff(h, cfg, h[v.ref].fields[i].1, fs[i].1, seen + {v.ref});
        }
      }
      assert out == fs <==> forall i :: 0 <= i < |fs| ==> out[i] == fs[i];
    case _ =>
  }

  /** Under a limit that spares the cycle marker every clean tree is stable. */
  lemma {:induction false} CleanIsStable(t: Tree, cfg: Config)
    requires Clean(t, cfg) && cfg.maxLength >= |CIRCULAR|
    ensures Stable(t, cfg)
  {
    match t
    case TArray(items) =>
      forall i | 0 <= i < |items| ensures Stable(items[i], cfg) { CleanIsStable(items[i], cfg); }
    case TObject(fields) =>
      forall i | 0 <= i < |fields| && fields[i].0 !in cfg.keys ensures Stable(fields[i].1, cfg) {
        CleanIsStable(fields[i].1, cfg);
      }
    case _ =>
  }

  /** A clean tree, walked again under a limit that spares the cycle marker, comes out unchanged. */
  lemma CleanTreeIsKept(h: Heap, cfg: Config, v: Value, t: Tree)
    requires Closed(h) && ValueIn(h, v) && Represents(h, v, t) && Clean(t, cfg)
    requires cfg.maxLength >= |CIRCULAR|
    ensures Walked(h, cfg, v, {}) == t
  {
    CleanIsStable(t, cfg);
    TreeIsKeptIff(h, cfg, v, t, {});
  }

  ghost function Above(refs: set<Ref>): (r: Ref)
    ensures forall x :: x in refs ==> x < r
  {
    if refs == {} then 0 else
    var x :| x in refs;
    var rest := Above(refs - {x});
    assert forall y :: y in refs && y != x ==> y in refs - {x};
    MaxInt(rest, x + 1)
  }

  predicate Extends(h: Heap, base: Heap) {
    forall r :: r in base ==> r in h && h[r] == base[r]
  }

  predicate Grows(h: Heap, base: Heap) {
    var ok := Closed(h) && Extends(h, base);
    ok
  }

  lemma {:induction false} ExtensionRepresents(h: Heap, base: Heap, v: Value, t: Tree)
    requires Extends(h, base) && Represents(base, v, t)
    ensures Represents(h, v, t)
    decreases t
  {
    match t
    case TArray(ts) =>
      forall i | 0 <= i < |ts| ensures Represents(h, h[v.ref].items[i], ts[i]) {
        ExtensionRepresents(h, base, base[v.ref].items[i], ts[i]);
      }
    case TObject(fs) =>
      forall i | 0 <= i < |fs| ensures Represents(h, h[v.ref].fields[i].1, fs[i].1) {
        ExtensionRepresents(h, base, base[v.ref].fields[i].1, fs[i].1);
      }
    case _ =>
  }

  lemma {:induction false} LayItems(ts: seq<Tree>, base: Heap) returns (h: Heap, vs: seq<Value>)
    requires Closed(base) && forall i :: 0 <= i < |ts| ==> ProperTree(ts[i])
    ensures Grows(h, base) && PicturesAll(h, vs, ts)
    decreases ts
  {
    if ts == [] { return base, []; }
    var n := |ts| - 1;
    var h', vs' := LayItems(ts[..n], base);
    var v;
    h, v := LayTree(ts[n], h');
    vs := vs' + [v];
    forall i | 0 <= i < |ts| ensures Pictures(h, vs[i], ts[i]) {
      if i < n { ExtensionRepresents(h, h', vs'[i], ts[i]); }
    }
  }

  lemma {:induction false} LayFields(fs: seq<(string, Tree)>, base: Heap) returns (h: Heap, out: seq<(string, Value)>)
    requires Closed(base) && forall i :: 0 <= i < |fs| ==> ProperTree(fs[i].1)
    ensures Grows(h, base) && PicturesFields(h, out, fs)
    decreases fs
  {
    if fs == [] { return base, []; }
    var n := |fs| - 1;
    var h', out' := LayFields(fs[..n], base);
    var field;
    h, field := LayField(fs[n], h');
    out := out' + [field];
    forall i | 0 <= i < |fs| ensures PicturesField(h, out[i], fs[i]) {
      if i < n { ExtensionRepresents(h, h', out'[i].1, fs[i].1); }
    }
  }

  lemma {:induction false} LayField(f: (string, Tree), base: Heap) returns (h: Heap, field: (string, Value))
    requires Closed(base) && ProperTree(f.1)
    ensures Grows(h, base) && PicturesField(h, field, f)
    decreases f
  {
    var v;
    h, v := LayTree(f.1, base);
    field := (f.0, v);
  }

  /** Every tree without repeated keys can be laid out in some graph, next to what is there already. */
  lemma {:induction false} LayTree(t: Tree, base: Heap) returns (h: Heap, v: Value)
    requires Closed(base) && ProperTree(t)
    ensures LaidOut(h, base, v, t)
    decreases t
  {
    match t {
      case TNull => return base, Null;
      case TUndefined => return base, Undefined;
      case TStr(s) => return base, Str(s);
      case TNum(n) => return base, Num(n);
      case TBool(b) => return base, Bool(b);
      case TBigInt(i) => return base, BigInt(i);
      case TArray(ts) =>
        var h', vs := LayItems(ts, base);
        var r := Above(h'.Keys);
        forall i | 0 <= i < |ts| ensures ValueIn(h', vs[i]) { assert Pictures(h', vs[i], ts[i]); }
        h, v := h'[r := Array(vs)], Obj(r);
        forall i | 0 <= i < |ts| ensures Represents(h, vs[i], ts[i]) {
          assert Pictures(h', vs[i], ts[i]);
          ExtensionRepresents(h, h', vs[i], ts[i]);
        }
      case TObject(fs) =>
        var h', out := LayFields(fs, base);
        var r := Above(h'.Keys);
        forall i | 0 <= i < |fs| ensures ValueIn(h', out[i].1) && out[i].0 == fs[i].0 {
          assert PicturesField(h', out[i], fs[i]);
        }
        h, v := h'[r := Object(out)], Obj(r);
        forall i | 0 <= i < |fs| ensures out[i].0 == fs[i].0 && Represents(h, out[i].1, fs[i].1) {
          assert PicturesField(h', out[i], fs[i]);
          ExtensionRepresents(h, h', out[i].1, fs[i].1);
        }
    }
  }

  /** Every output is the picture of some graph, so there always is something to redact again. */
  lemma EveryOutputHasALayout(h: Heap, cfg: Config, v: Value) returns (h': Heap, v': Value)
    requires Closed(h) && ValueIn(h, v)
    ensures Closed(h') && Pictures(h', v', Walked(h, cfg, v, {}))
  {
    WalkedIsProper(h, cfg, v, {});
    h', v' := LayTree(Walked(h, cfg, v, {}), map[]);
  }

  /** An object that is its own ancestor, where the walk writes the cycle marker. */
  predicate IsCyclic(spot: Spot) { !spot.redacted && spot.v.Obj? && spot.v.ref in spot.above }

  predicate CyclicAt(h: Heap, cfg: Config, spot: Spot, path: seq<Step>)
    requires Closed(h) && ValueIn(h, spot.v)
  {
    var reached := Reached(h, cfg, spot, path);
    reached.Some? && IsCyclic(reached.value)
  }

  /** Some path that passes no redacted key ends at an object that is its own ancestor. */
  ghost predicate MeetsItself(h: Heap, cfg: Config, spot: Spot)
    requires Closed(h) && ValueIn(h, spot.v)
  {
    exists path :: CyclicAt(h, cfg, spot, path)
  }

  ghost predicate MeetsItselfBelow(h: Heap, cfg: Config, spot: Spot, step: Step)
    requires Closed(h) && ValueIn(h, spot.v)
  {
    var next := StepDown(h, cfg, spot, step);
    next.Some? && MeetsItself(h, cfg, next.value)
  }

  lemma MeetsItselfHereOrBelow(h: Heap, cfg: Config, spot: Spot)
    requires Closed(h) && ValueIn(h, spot.v)
    ensures MeetsItself(h, cfg, spot) <==> IsCyclic(spot) || exists step :: MeetsItselfBelow(h, cfg, spot, step)
  {
    if path :| CyclicAt(h, cfg, spot, path) {
      if path != [] {
        assert CyclicAt(h, cfg, StepDown(h, cfg, spot, path[0]).value, path[1..]);
        assert MeetsItselfBelow(h, cfg, spot, path[0]);
      }
    }
    if IsCyclic(spot) { assert CyclicAt(h, cfg, spot, []); }
    if step :| MeetsItselfBelow(h, cfg, spot, step) {
      var path :| CyclicAt(h, cfg, StepDown(h, cfg, spot, step).value, path);
      assert ([step] + path)[0] == step && ([step] + path)[1..] == path;
      assert CyclicAt(h, cfg, spot, [step] + path);
    }
  }

  lemma LeafIsStable(h: Heap, cfg: Config, v: Value, seen: set<Ref>)
    requires Closed(h) && ValueIn(h, v) && (v.Obj? ==> v.ref in seen)
    ensures Stable(Walked(h, cfg, v, seen), cfg)
       <==> cfg.maxLength >= |CIRCULAR| || !MeetsItself(h, cfg, Spot(v, seen, false))
  {
    MeetsItselfHereOrBelow(h, cfg, Spot(v, seen, false));
    assert forall step :: !MeetsItselfBelow(h, cfg, Spot(v, seen, false), step);
  }

  /** The output survives a second walk unless a cycle marker in it is too long for the limit. */
  lemma {:induction false} OutputIsStableIff(h: Heap, cfg: Config, v: Value, seen: set<Ref>)
    requires Closed(h) && ValueIn(h, v)
    ensures Stable(Walked(h, cfg, v, seen), cfg)
       <==> cfg.maxLength >= |CIRCULAR| || !MeetsItself(h, cfg, Spot(v, seen, false))
    decreases h.Keys - seen
  {
    if !v.Obj? || v.ref in seen {
      LeafIsStable(h, cfg, v, seen);
    } else {
      var spot, t := Spot(v, seen, false), Walked(h, cfg, v, seen);
      assert NodeIn(h, h[v.ref]);
      MeetsItselfHereOrBelow(h, cfg, spot);
      match h[v.ref] {
        case Array(items) =>
          forall i | 0 <= i < |items|
            ensures Stable(t.items[i], cfg) <==> cfg.maxLength >= |CIRCULAR| || !MeetsItselfBelow(h, cfg, spot, At(i))
          {
            OutputIsStableIff(h, cfg, items[i], seen + {v.ref});
          }
          forall step | MeetsItselfBelow(h, cfg, spot, step) ensures step.At? && step.index < |items| {}
        case Object(fields) =>
          forall i | 0 <= i < |fields|
            ensures (fields[i].0 in cfg.keys || Stable(t.fields[i].1, cfg))
               <==> cfg.maxLength >= |CIRCULAR| || !MeetsItselfBelow(h, cfg, spot, Field(fields[i].0))
          {
            FieldIsStableIff(h, cfg, spot, i);
            if fields[i].0 !in cfg.keys { OutputIsStableIff(h, cfg, fields[i].1, seen + {v.ref}); }
          }
          forall step | MeetsItselfBelow(h, cfg, spot, step)
            ensures step.Field? && KeyIndex(fields, step.key) >= 0 {}
      }
    }
  }

  /** The way down to a field: nothing is met behind a redacted key. */
  lemma FieldIsStableIff(h: Heap, cfg: Config, spot: Spot, i: nat)
    requires Closed(h) && spot.v.Obj? && spot.v.ref in h && h[spot.v.ref].Object? && i < |h[spot.v.ref].fields|
    requires !spot.redacted && spot.v.ref !in spot.above
    ensures
      var field := h[spot.v.ref].fields[i];
      MeetsItselfBelow(h, cfg, spot, Field(field.0))
      <==> field.0 !in cfg.keys
           && ValueIn(h, field.1) && MeetsItself(h, cfg, Spot(field.1, spot.above + {spot.v.ref}, false))
  {
    assert NodeIn(h, h[spot.v.ref]);
    var field := h[spot.v.ref].fields[i];
    var k := KeyIndex(h[spot.v.ref].fields, field.0);
    assert k == i;
    var next := StepDown(h, cfg, spot, Field(field.0)).value;
    MeetsItselfHereOrBelow(h, cfg, next);
  }

  /**
   Redacting an output again, however it is laid out in memory, returns it unchanged if and only if
   the limit spares the cycle marker, or no object of the payload is its own ancestor on a path that
   passes no redacted key.
   */
  lemma RedactingTwiceIff(h: Heap, cfg: Config, v: Value, h': Heap, v': Value)
    requires Closed(h) && ValueIn(h, v) && Closed(h') && ValueIn(h', v')
    requires Represents(h', v', Walked(h, cfg, v, {}))
    ensures Walked(h', cfg, v', {}) == Walked(h, cfg, v, {})
       <==> cfg.maxLength >= |CIRCULAR| || !MeetsItself(h, cfg, Spot(v, {}, false))
  {
    OutputIsStableIff(h, cfg, v, {});
    TreeIsKeptIff(h', cfg, v', Walked(h, cfg, v, {}), {});
  }

  /** Redacting an output again, however it is laid out in memory, returns it unchanged. */
  ghost predicate Idempotent(cfg: Config) {
    forall h, v, h', v' ::
      Closed(h) && ValueIn(h, v) && Closed(h') && ValueIn(h', v') && Represents(h', v', Walked(h, cfg, v, {}))
      ==> Walked(h', cfg, v', {}) == Walked(h, cfg, v, {})
  }

  lemma ShortLimitCutsMarker(cfg: Config)
    requires cfg.maxLength < |CIRCULAR|
    ensures !Idempotent(cfg)
  {
    var loop: Heap := map[0 := Array([Obj(0)])];
    var spot := Spot(Obj(0), {}, false);
    assert Closed(loop);
    assert StepDown(loop, cfg, spot, At(0)) == Some(Spot(Obj(0), {} + {0}, false));
    assert Reached(loop, cfg, spot, [At(0)]) == Reached(loop, cfg, Spot(Obj(0), {} + {0}, false), [At(0)][1..]);
    assert CyclicAt(loop, cfg, spot, [At(0)]);
    var h, v := EveryOutputHasALayout(loop, cfg, Obj(0));
    RedactingTwiceIff(loop, cfg, Obj(0), h, v);
  }

  /** Redaction is idempotent if and only if the length limit spares the marker '[CIRCULAR]'. */
  lemma IdempotentIff(cfg: Config)
    ensures Idempotent(cfg) <==> cfg.maxLength >= |CIRCULAR|
  {
    if cfg.maxLength >= |CIRCULAR| {
      forall h, v, h', v' | Closed(h) && ValueIn(h, v) && Closed(h') && ValueIn(h', v')
          && Represents(h', v', Walked(h, cfg, v, {}))
        ensures Walked(h', cfg, v', {}) == Walked(h, cfg, v, {})
      {
        RedactingTwiceIff(h, cfg, v, h', v');
      }
    } else {
      ShortLimitCutsMarker(cfg);
    }
  }
}
