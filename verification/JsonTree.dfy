/** JSON documents as trees, the addresses of their nodes, and the effect of writing string leaves. */
module JsonTree {
  import opened Wrappers
  import Pointer

  datatype Member = Member(key: string, value: Json)

  datatype Json =
    | Null
    | Scalar(raw: string)
    | Str(text: string)
    | Arr(items: seq<Json>)
    | Obj(members: seq<Member>)

  /** The position of a node: which child to take at each level. */
  type Address = seq<nat>

  function Size(v: Json): nat { if v.Arr? then |v.items| else if v.Obj? then |v.members| else 0 }

  function Kid(v: Json, i: nat): (kid: Json)
    requires i < Size(v)
    ensures kid < v
  {
    if v.Arr? then v.items[i] else v.members[i].value
  }

  function WithKid(v: Json, i: nat, kid: Json): Json
    requires i < Size(v)
  {
    if v.Arr? then Arr(v.items[i := kid]) else Obj(v.members[i := Member(v.members[i].key, kid)])
  }

  /** The token that names child `i`. */
  function Token(v: Json, i: nat): string
    requires i < Size(v)
  {
    if v.Arr? then Pointer.Digits(i) else v.members[i].key
  }

  function IndexOfKey(members: seq<Member>, key: string): (index: Option<nat>)
    ensures index.Some? ==> index.value < |members| && members[index.value].key == key
    ensures index.None? ==> forall i | 0 <= i < |members| :: members[i].key != key
  {
    if members == [] then None
    else if members[0].key == key then Some(0)
    else
      var rest := IndexOfKey(members[1..], key);
      assert forall i | 0 < i < |members| :: members[i] == members[1..][i - 1];
      if rest.None? then None else Some(rest.value + 1)
  }

  /** The child a token names, in an object by key and in an array by decimal index. */
  function Step(v: Json, token: string): (i: Option<nat>)
    ensures i.Some? ==> i.value < Size(v)
  {
    if v.Obj? then IndexOfKey(v.members, token)
    else if v.Arr? then
      var index := Pointer.Atoi(token);
      if index.Some? && 0 <= index.value < |v.items| then Some(index.value) else None
    else None
  }

  function Resolve(v: Json, tokens: seq<string>): Option<Address>
    decreases |tokens|
  {
    if tokens == [] then Some([])
    else
      var i := Step(v, tokens[0]);
      if i.None? then None
      else
        var rest := Resolve(Kid(v, i.value), tokens[1..]);
        if rest.None? then None else Some([i.value] + rest.value)
  }

  function At(v: Json, a: Address): Option<Json>
    decreases |a|
  {
    if a == [] then Some(v) else if a[0] < Size(v) then At(Kid(v, a[0]), a[1..]) else None
  }

  predicate LeafAt(v: Json, a: Address) { At(v, a).Some? && At(v, a).value.Str? }

  /** Writes a string at an address. */
  function Put(v: Json, a: Address, text: string): Json
    decreases |a|
  {
    if a == [] then Str(text)
    else if a[0] < Size(v) then WithKid(v, a[0], Put(Kid(v, a[0]), a[1..], text))
    else v
  }

  /** Objects name each of their members once. */
  predicate WellFormed(v: Json)
    decreases v
  {
    && (v.Obj? ==> forall i, j | 0 <= i < j < |v.members| :: v.members[i].key != v.members[j].key)
    && forall i | 0 <= i < Size(v) :: WellFormed(Kid(v, i))
  }

  function TokensAt(v: Json, a: Address): seq<string>
    requires At(v, a).Some?
    decreases |a|
  {
    if a == [] then [] else [Token(v, a[0])] + TokensAt(Kid(v, a[0]), a[1..])
  }

  lemma StepOfToken(v: Json, i: nat)
    requires WellFormed(v) && i < Size(v)
    ensures Step(v, Token(v, i)) == Some(i)
  {
    Pointer.AtoiOfDigits(i);
    if v.Obj? {
      var found := IndexOfKey(v.members, v.members[i].key);
      assert found.Some? && v.members[found.value].key == v.members[i].key;
    }
  }

  /** The printed tokens of a node lead back to it. */
  lemma {:induction false} ResolveTokens(v: Json, a: Address)
    requires WellFormed(v) && At(v, a).Some?
    ensures Resolve(v, TokensAt(v, a)) == Some(a)
    decreases |a|
  {
    if a != [] {
      StepOfToken(v, a[0]);
      ResolveTokens(Kid(v, a[0]), a[1..]);
      assert TokensAt(v, a)[1..] == TokensAt(Kid(v, a[0]), a[1..]);
      assert [a[0]] + a[1..] == a;
    }
  }

  // ---------------------------------------------------------------- writing leaves

  lemma {:induction false} PutReads(v: Json, a: Address, text: string)
    requires At(v, a).Some?
    ensures At(Put(v, a, text), a) == Some(Str(text))
    decreases |a|
  {
    if a != [] { PutReads(Kid(v, a[0]), a[1..], text); }
  }

  /** Writing one leaf leaves every other leaf as it was. */
  lemma {:induction false} PutElsewhere(v: Json, a: Address, text: string, b: Address)
    requires LeafAt(v, a) && a != b
    ensures LeafAt(Put(v, a, text), b) <==> LeafAt(v, b)
    ensures LeafAt(v, b) ==> At(Put(v, a, text), b) == At(v, b)
    decreases |a|
  {
    if a != [] && b != [] && a[0] == b[0] {
      assert a == [a[0]] + a[1..] && b == [b[0]] + b[1..];
      PutElsewhere(Kid(v, a[0]), a[1..], text, b[1..]);
    }
  }

  lemma {:induction false} PutKeepsResolve(v: Json, a: Address, text: string, tokens: seq<string>)
    requires LeafAt(v, a)
    ensures Resolve(Put(v, a, text), tokens) == Resolve(v, tokens)
    decreases |a|
  {
    if a != [] && tokens != [] {
      PutKeepsStep(v, a[0], Put(Kid(v, a[0]), a[1..], text), tokens[0]);
      if Step(v, tokens[0]) == Some(a[0]) { PutKeepsResolve(Kid(v, a[0]), a[1..], text, tokens[1..]); }
    }
  }

  lemma PutKeepsStep(v: Json, i: nat, kid: Json, token: string)
    requires i < Size(v)
    ensures Step(WithKid(v, i, kid), token) == Step(v, token)
  {
    if v.Obj? { KeysDecideIndex(v.members, WithKid(v, i, kid).members, token); }
  }

  lemma {:induction false} KeysDecideIndex(a: seq<Member>, b: seq<Member>, key: string)
    requires |a| == |b| && forall i | 0 <= i < |a| :: a[i].key == b[i].key
    ensures IndexOfKey(a, key) == IndexOfKey(b, key)
  {
    if a != [] { KeysDecideIndex(a[1..], b[1..], key); }
  }

  lemma {:induction false} PutTwice(v: Json, a: Address, first: string, second: string)
    requires At(v, a).Some?
    ensures Put(Put(v, a, first), a, second) == Put(v, a, second)
    decreases |a|
  {
    if a != [] { PutTwice(Kid(v, a[0]), a[1..], first, second); }
  }

  lemma {:induction false} PutsCommute(v: Json, a: Address, x: string, b: Address, y: string)
    requires LeafAt(v, a) && LeafAt(v, b) && a != b
    ensures Put(Put(v, a, x), b, y) == Put(Put(v, b, y), a, x)
    decreases |a|
  {
    if a != [] && b != [] {
      assert a == [a[0]] + a[1..] && b == [b[0]] + b[1..];
      if a[0] == b[0] {
        PutsCommute(Kid(v, a[0]), a[1..], x, b[1..], y);
      } else {
        KidsCommute(v, a[0], Put(Kid(v, a[0]), a[1..], x), b[0], Put(Kid(v, b[0]), b[1..], y));
      }
    }
  }

  lemma KidsCommute(v: Json, i: nat, x: Json, j: nat, y: Json)
    requires i < Size(v) && j < Size(v) && i != j
    ensures WithKid(WithKid(v, i, x), j, y) == WithKid(WithKid(v, j, y), i, x)
  {
  }

  // ---------------------------------------------------------------- writing many leaves

  /** Writes a list of leaves, first to last. */
  function Fill(v: Json, addresses: seq<Address>, texts: seq<string>): Json
    requires |addresses| == |texts|
  {
    if addresses == [] then v
    else
      var n := |addresses| - 1;
      Put(Fill(v, addresses[..n], texts[..n]), addresses[n], texts[n])
  }

  predicate DistinctLeaves(v: Json, addresses: seq<Address>) {
    && (forall i {:trigger LeafAt(v, addresses[i])} | 0 <= i < |addresses| :: LeafAt(v, addresses[i]))
    && forall i, j | 0 <= i < j < |addresses| :: addresses[i] != addresses[j]
  }

  lemma {:induction false} FillKeepsLeaf(v: Json, addresses: seq<Address>, texts: seq<string>, b: Address)
    requires |addresses| == |texts| && forall i | 0 <= i < |addresses| :: LeafAt(v, addresses[i])
    ensures LeafAt(Fill(v, addresses, texts), b) <==> LeafAt(v, b)
    ensures LeafAt(v, b) && b !in addresses ==> At(Fill(v, addresses, texts), b) == At(v, b)
  {
    if addresses != [] {
      var n := |addresses| - 1;
      FillKeepsLeaf(v, addresses[..n], texts[..n], b);
      FillKeepsLeaf(v, addresses[..n], texts[..n], addresses[n]);
      var before := Fill(v, addresses[..n], texts[..n]);
      if b == addresses[n] {
        PutReads(before, b, texts[n]);
      } else {
        PutElsewhere(before, addresses[n], texts[n], b);
      }
    }
  }

  lemma {:induction false} FillKeepsResolve(v: Json, addresses: seq<Address>, texts: seq<string>, tokens: seq<string>)
    requires |addresses| == |texts| && forall i | 0 <= i < |addresses| :: LeafAt(v, addresses[i])
    ensures Resolve(Fill(v, addresses, texts), tokens) == Resolve(v, tokens)
  {
    if addresses != [] {
      var n := |addresses| - 1;
      FillKeepsResolve(v, addresses[..n], texts[..n], tokens);
      FillKeepsLeaf(v, addresses[..n], texts[..n], addresses[n]);
      PutKeepsResolve(Fill(v, addresses[..n], texts[..n]), addresses[n], texts[n], tokens);
    }
  }

  /** Each listed leaf ends up with its own text. */
  lemma {:induction false} FillReads(v: Json, addresses: seq<Address>, texts: seq<string>, i: nat)
    requires |addresses| == |texts| && DistinctLeaves(v, addresses) && i < |addresses|
    ensures At(Fill(v, addresses, texts), addresses[i]) == Some(Str(texts[i]))
  {
    var n := |addresses| - 1;
    var before := Fill(v, addresses[..n], texts[..n]);
    FillKeepsLeaf(v, addresses[..n], texts[..n], addresses[n]);
    if i == n {
      PutReads(before, addresses[n], texts[n]);
    } else {
      FillReads(v, addresses[..n], texts[..n], i);
      PutElsewhere(before, addresses[n], texts[n], addresses[i]);
    }
  }

  lemma {:induction false} FillThenPut(v: Json, addresses: seq<Address>, texts: seq<string>, a: Address, text: string)
    requires |addresses| == |texts| && DistinctLeaves(v, addresses) && LeafAt(v, a) && a !in addresses
    ensures Put(Fill(v, addresses, texts), a, text) == Fill(Put(v, a, text), addresses, texts)
  {
    if addresses != [] {
      var n := |addresses| - 1;
      var before := Fill(v, addresses[..n], texts[..n]);
      assert a !in addresses[..n];
      FillThenPut(v, addresses[..n], texts[..n], a, text);
      FillKeepsLeaf(v, addresses[..n], texts[..n], addresses[n]);
      FillKeepsLeaf(v, addresses[..n], texts[..n], a);
      PutsCommute(before, addresses[n], texts[n], a, text);
    }
  }

  /** Writing the same leaves again overwrites whatever was written to them before. */
  lemma {:induction false} FillOver(v: Json, addresses: seq<Address>, first: seq<string>, second: seq<string>)
    requires |addresses| == |first| == |second| && DistinctLeaves(v, addresses)
    ensures Fill(Fill(v, addresses, first), addresses, second) == Fill(v, addresses, second)
  {
    if addresses != [] {
      var n := |addresses| - 1;
      var a, some := addresses[n], addresses[..n];
      var before := Fill(v, some, first[..n]);
      FillOver(v, some, first[..n], second[..n]);
      forall b ensures LeafAt(before, b) <==> LeafAt(v, b) { FillKeepsLeaf(v, some, first[..n], b); }
      FillThenPut(before, some, second[..n], a, first[n]);
      FillKeepsLeaf(v, some, second[..n], a);
      PutTwice(Fill(v, some, second[..n]), a, first[n], second[n]);
    }
  }

  // ---------------------------------------------------------------- the document written in place

  /** The string leaf a path names. */
  function TextAt(v: Json, path: string): Option<Address> {
    var a := Resolve(v, Pointer.Tokens(path));
    if a.Some? && LeafAt(v, a.value) then a else None
  }

  class Document {
    var root: Json

    constructor (v: Json)
      ensures root == v
    {
      root := v;
    }

    /** Follows the path one token at a time, and writes the leaf at its end if it is a string. */
    method SetString(path: string, text: string) returns (ok: bool)
      modifies this
      ensures ok == TextAt(old(root), path).Some?
      ensures root == if ok then Put(old(root), TextAt(old(root), path).value, text) else old(root)
    {
      var node, tokens := root, Pointer.Tokens(path);
      var address: Address := [];
      assert tokens[0..] == tokens;
      PrefixedNothing(Resolve(root, tokens));
      for i := 0 to |tokens|
        invariant i < |tokens| || TextAt(root, path).None?
        invariant root == old(root) && |address| == i && At(root, address) == Some(node)
        invariant Resolve(root, tokens) == Prefixed(address, Resolve(node, tokens[i..]))
      {
        var child := Step(node, tokens[i]);
        if child.None? { return false; }
        AtDeeper(root, address, child.value);
        ResolveDeeper(node, tokens[i..], address);
        assert tokens[i..][1..] == tokens[i + 1..];
        address, node := address + [child.value], Kid(node, child.value);
        if i == |tokens| - 1 {
          assert tokens[i + 1..] == [] && address + [] == address;
          if !node.Str? { return false; }
          root := Put(root, address, text);
          return true;
        }
      }
      return false;
    }
  }

  function Prefixed(address: Address, rest: Option<Address>): Option<Address> {
    if rest.None? then None else Some(address + rest.value)
  }

  lemma PrefixedNothing(rest: Option<Address>)
    ensures Prefixed([], rest) == rest
  {
    if rest.Some? { assert [] + rest.value == rest.value; }
  }

  lemma {:induction false} AtDeeper(v: Json, a: Address, i: nat)
    requires At(v, a).Some? && i < Size(At(v, a).value)
    ensures At(v, a + [i]) == Some(Kid(At(v, a).value, i))
    decreases |a|
  {
    if a != [] {
      assert (a + [i])[1..] == a[1..] + [i];
      AtDeeper(Kid(v, a[0]), a[1..], i);
    }
  }

  lemma ResolveDeeper(node: Json, tokens: seq<string>, address: Address)
    requires tokens != [] && Step(node, tokens[0]).Some?
    ensures var i := Step(node, tokens[0]).value;
            Prefixed(address, Resolve(node, tokens)) == Prefixed(address + [i], Resolve(Kid(node, i), tokens[1..]))
  {
    var i := Step(node, tokens[0]).value;
    var rest := Resolve(Kid(node, i), tokens[1..]);
    if rest.Some? { assert address + ([i] + rest.value) == (address + [i]) + rest.value; }
  }
}
