/** Cropping one history unit: the listed texts of its document are cut, in place, to ever changing
    lengths while a bisection looks for the longest cut whose rendering still fits.

    The cost of the rendered section is an arbitrary function of the document. */
module UnitCrop {
  import opened Wrappers
  import opened JsonTree
  import opened HistoryText
  import Pointer
  import Retrieval

  const Marker := "_truncated"

  /** Adds the truncation mark to the top object, or overwrites a member of that name. */
  function Mark(root: Json): Json {
    if !root.Obj? then root
    else
      var i := IndexOfKey(root.members, Marker);
      if i.Some? then Obj(root.members[i.value := Member(Marker, Scalar("true"))])
      else Obj(root.members + [Member(Marker, Scalar("true"))])
  }

  function Cut(text: string, limit: nat): string { if limit < |text| then text[..limit] else text }

  function Cuts(fields: seq<Field>, limit: nat): (r: seq<string>)
    ensures |r| == |fields|
  {
    seq(|fields|, i requires 0 <= i < |fields| => Cut(fields[i].text, limit))
  }

  function Spans(fields: seq<Field>, limit: nat): seq<Retrieval.Span> {
    if fields == [] then []
    else
      var n := |fields| - 1;
      var kept := |Cut(fields[n].text, limit)|;
      Spans(fields[..n], limit) + (if kept > 0 then [Retrieval.Span(fields[n].Path(), 0, kept)] else [])
  }

  function Longest(fields: seq<Field>): nat {
    if fields == [] then 0
    else
      var n := |fields| - 1;
      var rest := Longest(fields[..n]);
      if |fields[n].text| > rest then |fields[n].text| else rest
  }

  // ---------------------------------------------------------------- where the fields are

  /** Every field's path leads to a string of the document, and no two to the same one. */
  ghost predicate Printed(v: Json, fields: seq<Field>, homes: seq<Address>) {
    && |homes| == |fields| && DistinctLeaves(v, homes)
    && forall i {:trigger TextAt(v, fields[i].Path())} | 0 <= i < |fields| :: TextAt(v, fields[i].Path()) == Some(homes[i])
  }

  lemma MarkKeepsReach(root: Json, tokens: seq<string>, v: Json)
    requires root.Obj? && tokens != [] && tokens[0] != Marker && Reaches(root, tokens, v)
    ensures Reaches(Mark(root), tokens, v)
  {
    var a: Address :| At(root, a) == Some(v) && TokensAt(root, a) == tokens;
    assert a != [];
    assert Token(root, a[0]) == tokens[0];
    assert Kid(Mark(root), a[0]) == Kid(root, a[0]) && Token(Mark(root), a[0]) == Token(root, a[0]);
    assert At(Mark(root), a) == Some(v) && TokensAt(Mark(root), a) == tokens;
  }

  lemma MarkIsWellFormed(root: Json)
    requires WellFormed(root)
    ensures WellFormed(Mark(root))
  {
    if root.Obj? {
      var marked := Mark(root);
      forall i | 0 <= i < Size(marked) ensures WellFormed(Kid(marked, i)) {
        if marked.members[i].key != Marker { assert Kid(marked, i) == Kid(root, i); }
      }
    }
  }

  lemma PathLeadsHome(v: Json, f: Field)
    requires WellFormed(v) && f.tokens != [] && Reaches(v, f.tokens, Str(f.text))
    ensures TextAt(v, f.Path()).Some?
    ensures LeafAt(v, TextAt(v, f.Path()).value) && TokensAt(v, TextAt(v, f.Path()).value) == f.tokens
    ensures At(v, TextAt(v, f.Path()).value) == Some(Str(f.text))
  {
    var a: Address :| At(v, a) == Some(Str(f.text)) && TokensAt(v, a) == f.tokens;
    ResolveTokens(v, a);
    Pointer.TokensOfPrinted(f.tokens);
  }

  function Homes(v: Json, fields: seq<Field>): (homes: seq<Address>)
    requires forall i | 0 <= i < |fields| :: TextAt(v, fields[i].Path()).Some?
    ensures |homes| == |fields| && forall i | 0 <= i < |fields| :: TextAt(v, fields[i].Path()) == Some(homes[i])
  {
    seq(|fields|, i requires 0 <= i < |fields| => TextAt(v, fields[i].Path()).value)
  }

  lemma FieldIsPrinted(root: Json, f: Field)
    requires WellFormed(root) && root.Obj? && f.tokens != [] && f.tokens[0] in TopNames()
    requires Reaches(root, f.tokens, Str(f.text))
    ensures TextAt(Mark(root), f.Path()).Some?
    ensures var home := TextAt(Mark(root), f.Path()).value;
            && LeafAt(Mark(root), home) && TokensAt(Mark(root), home) == f.tokens
            && At(Mark(root), home) == Some(Str(f.text))
  {
    MarkIsWellFormed(root);
    assert Marker[0] == '_' && f.tokens[0][0] != '_';
    MarkKeepsReach(root, f.tokens, Str(f.text));
    PathLeadsHome(Mark(root), f);
  }

  /** The listed fields of a document are all found in its marked copy, through their printed paths. */
  lemma FieldsArePrinted(root: Json, fields: seq<Field>) returns (homes: seq<Address>)
    requires WellFormed(root) && root.Obj? && Headed(root, fields, [], TopNames())
    ensures Printed(Mark(root), fields, homes)
    ensures forall i | 0 <= i < |homes| :: At(Mark(root), homes[i]) == Some(Str(fields[i].text))
  {
    var marked := Mark(root);
    forall i | 0 <= i < |fields|
      ensures TextAt(marked, fields[i].Path()).Some?
    {
      FieldIsPrinted(root, fields[i]);
    }
    homes := Homes(marked, fields);
    forall i | 0 <= i < |fields|
      ensures LeafAt(marked, homes[i]) && TokensAt(marked, homes[i]) == fields[i].tokens
      ensures At(marked, homes[i]) == Some(Str(fields[i].text))
    {
      FieldIsPrinted(root, fields[i]);
    }
    HomesDiffer(marked, fields, homes);
  }

  lemma HomesDiffer(v: Json, fields: seq<Field>, homes: seq<Address>)
    requires |homes| == |fields| && Unique(fields)
    requires forall i | 0 <= i < |homes| :: At(v, homes[i]).Some? && TokensAt(v, homes[i]) == fields[i].tokens
    ensures forall i, j | 0 <= i < j < |homes| :: homes[i] != homes[j]
  {
    forall i, j | 0 <= i < j < |homes| ensures homes[i] != homes[j] {
      assert TokensAt(v, homes[i]) == fields[i].tokens && TokensAt(v, homes[j]) == fields[j].tokens;
    }
  }

  // ---------------------------------------------------------------- the document after a probe

  /** `w` is `v` with exactly the listed fields cut to the limit. */
  ghost predicate IsCut(v: Json, fields: seq<Field>, homes: seq<Address>, limit: nat, w: Json)
    requires |homes| == |fields|
  {
    && (forall i | 0 <= i < |fields| :: At(w, homes[i]) == Some(Str(Cut(fields[i].text, limit))))
    && (forall b: Address :: LeafAt(w, b) <==> LeafAt(v, b))
    && (forall b: Address | LeafAt(v, b) && b !in homes :: At(w, b) == At(v, b))
    && (forall tokens: seq<string> :: Resolve(w, tokens) == Resolve(v, tokens))
  }

  lemma FillIsCut(v: Json, fields: seq<Field>, homes: seq<Address>, limit: nat)
    requires Printed(v, fields, homes)
    ensures IsCut(v, fields, homes, limit, Fill(v, homes, Cuts(fields, limit)))
  {
    var cuts := Cuts(fields, limit);
    var w := Fill(v, homes, cuts);
    forall i | 0 <= i < |fields| ensures At(w, homes[i]) == Some(Str(Cut(fields[i].text, limit))) { FillReads(v, homes, cuts, i); }
    forall b: Address
      ensures LeafAt(w, b) <==> LeafAt(v, b)
      ensures LeafAt(v, b) && b !in homes ==> At(w, b) == At(v, b)
    {
      FillKeepsLeaf(v, homes, cuts, b);
    }
    forall tokens: seq<string> ensures Resolve(w, tokens) == Resolve(v, tokens) { FillKeepsResolve(v, homes, cuts, tokens); }
  }

  /** After any sequence of probes the document is a fresh copy cut to the last limit alone. */
  lemma {:induction false} LastProbeDecides(v: Json, fields: seq<Field>, homes: seq<Address>, limits: seq<nat>)
    requires Printed(v, fields, homes) && limits != []
    ensures Probed(v, fields, homes, limits) == Fill(v, homes, Cuts(fields, limits[|limits| - 1]))
  {
    var n := |limits| - 1;
    if n > 0 {
      LastProbeDecides(v, fields, homes, limits[..n]);
      FillOver(v, homes, Cuts(fields, limits[n - 1]), Cuts(fields, limits[n]));
    }
  }

  function Probed(v: Json, fields: seq<Field>, homes: seq<Address>, limits: seq<nat>): Json
    requires |homes| == |fields|
  {
    if limits == [] then v
    else Fill(Probed(v, fields, homes, limits[..|limits| - 1]), homes, Cuts(fields, limits[|limits| - 1]))
  }

  predicate Keeps(f: Field, limit: nat, path: string, k: int) { f.Path() == path && 0 <= k < |Cut(f.text, limit)| }

  lemma KeepsAppend(fields: seq<Field>, f: Field, limit: nat, path: string, k: int)
    ensures (exists i :: 0 <= i < |fields + [f]| && Keeps((fields + [f])[i], limit, path, k)) <==>
            (exists i :: 0 <= i < |fields| && Keeps(fields[i], limit, path, k)) || Keeps(f, limit, path, k)
  {
    var all := fields + [f];
    assert all[|fields|] == f && forall i | 0 <= i < |fields| :: all[i] == fields[i];
  }

  /** The spans are exactly the kept prefixes. */
  lemma {:induction false} SpansAreKeptPrefixes(fields: seq<Field>, limit: nat, path: string, k: int)
    ensures Retrieval.Covers(Spans(fields, limit), path, k) <==>
              exists i :: 0 <= i < |fields| && Keeps(fields[i], limit, path, k)
  {
    if fields != [] {
      var n := |fields| - 1;
      var some := fields[..n];
      var kept := |Cut(fields[n].text, limit)|;
      var last := if kept > 0 then [Retrieval.Span(fields[n].Path(), 0, kept)] else [];
      SpansAreKeptPrefixes(some, limit, path, k);
      Retrieval.CoversConcat(Spans(some, limit), last, path, k);
      assert Retrieval.Covers(last, path, k) <==> Keeps(fields[n], limit, path, k) by {
        if kept > 0 { assert last[0] == Retrieval.Span(fields[n].Path(), 0, kept); }
      }
      KeepsAppend(some, fields[n], limit, path, k);
      assert fields == some + [fields[n]];
    }
  }

  // ---------------------------------------------------------------- the search

  datatype Cropped = Cropped(content: Json, spans: seq<Retrieval.Span>)

  /** Cuts every field of the document to the limit, whatever earlier probes left there. */
  method MakeCandidate(doc: Document, fields: seq<Field>, limit: nat, ghost v: Json, ghost homes: seq<Address>, ghost before: seq<string>)
    returns (candidate: Option<Cropped>)
    requires Printed(v, fields, homes) && |before| == |fields| && doc.root == Fill(v, homes, before)
    modifies doc
    ensures candidate == Some(Trial(v, fields, homes, limit)) && doc.root == candidate.value.content
  {
    var spans: seq<Retrieval.Span> := [];
    ghost var start, cuts := doc.root, Cuts(fields, limit);
    for i := 0 to |fields|
      invariant doc.root == FillUpTo(start, homes, cuts, i) && spans == Spans(fields[..i], limit)
    {
      PathStaysHome(v, fields, homes, before, i, cuts);
      var ok := doc.SetString(fields[i].Path(), Cut(fields[i].text, limit));
      if !ok { return None; }
      FillStep(start, homes, cuts, i);
      SpansStep(fields, limit, i);
      var kept := |Cut(fields[i].text, limit)|;
      if kept > 0 { spans := spans + [Retrieval.Span(fields[i].Path(), 0, kept)]; }
    }
    assert fields[..|fields|] == fields && homes[..|fields|] == homes && cuts[..|fields|] == cuts;
    FillOver(v, homes, before, cuts);
    candidate := Some(Cropped(doc.root, spans));
  }

  function FillUpTo(v: Json, homes: seq<Address>, texts: seq<string>, n: nat): Json
    requires n <= |homes| == |texts|
  {
    Fill(v, homes[..n], texts[..n])
  }

  lemma FillStep(v: Json, homes: seq<Address>, texts: seq<string>, i: nat)
    requires i < |homes| == |texts|
    ensures Put(FillUpTo(v, homes, texts, i), homes[i], texts[i]) == FillUpTo(v, homes, texts, i + 1)
  {
    assert homes[..i + 1][..i] == homes[..i] && texts[..i + 1][..i] == texts[..i];
  }

  lemma SpansStep(fields: seq<Field>, limit: nat, i: nat)
    requires i < |fields|
    ensures var kept := |Cut(fields[i].text, limit)|;
            Spans(fields[..i + 1], limit) ==
            Spans(fields[..i], limit) + (if kept > 0 then [Retrieval.Span(fields[i].Path(), 0, kept)] else [])
  {
    assert fields[..i + 1][..i] == fields[..i];
  }

  /** Half way through a probe every path still leads to its own leaf. */
  lemma PathStaysHome(v: Json, fields: seq<Field>, homes: seq<Address>, before: seq<string>, i: nat, cuts: seq<string>)
    requires Printed(v, fields, homes) && i < |fields| && |before| == |cuts| == |fields|
    ensures TextAt(FillUpTo(Fill(v, homes, before), homes, cuts, i), fields[i].Path()) == Some(homes[i])
  {
    var start := Fill(v, homes, before);
    forall b: Address ensures LeafAt(start, b) <==> LeafAt(v, b) { FillKeepsLeaf(v, homes, before, b); }
    FillKeepsLeaf(start, homes[..i], cuts[..i], homes[i]);
    var tokens := Pointer.Tokens(fields[i].Path());
    FillKeepsResolve(v, homes, before, tokens);
    FillKeepsResolve(start, homes[..i], cuts[..i], tokens);
    assert TextAt(v, fields[i].Path()) == Some(homes[i]);
  }

  /** A fresh copy of the document cut to one limit, with its spans. */
  function Trial(v: Json, fields: seq<Field>, homes: seq<Address>, limit: nat): Cropped
    requires |homes| == |fields|
  {
    Cropped(Fill(v, homes, Cuts(fields, limit)), Spans(fields, limit))
  }

  predicate Fits(v: Json, fields: seq<Field>, homes: seq<Address>, limit: nat, cost: Json -> nat, budget: int)
    requires |homes| == |fields|
  {
    cost(Trial(v, fields, homes, limit).content) <= budget
  }

  /** The unit is the document cut to one limit, with its spans; it fits, and the next limit either does
      not fit or would cut nothing. */
  ghost predicate Longer(unit: Cropped, v: Json, fields: seq<Field>, homes: seq<Address>, limit: nat, cost: Json -> nat, budget: int)
    requires |homes| == |fields|
  {
    && limit < Longest(fields) && unit == Trial(v, fields, homes, limit) && Fits(v, fields, homes, limit, cost, budget)
    && (limit + 1 < Longest(fields) ==> !Fits(v, fields, homes, limit + 1, cost, budget))
  }

  /** What the search returns: none exactly when there is no text or when even the empty texts do not fit. */
  ghost predicate Best(unit: Option<Cropped>, v: Json, fields: seq<Field>, homes: seq<Address>, limit: nat, cost: Json -> nat, budget: int)
    requires |homes| == |fields|
  {
    if Longest(fields) == 0 || !Fits(v, fields, homes, 0, cost, budget) then unit.None?
    else unit.Some? && Longer(unit.value, v, fields, homes, limit, cost, budget)
  }

  /** `trial` gives the fresh cut copy for every limit. */
  ghost predicate Trials(trial: nat -> Cropped, v: Json, fields: seq<Field>, homes: seq<Address>) {
    Printed(v, fields, homes) && forall l: nat {:trigger Trial(v, fields, homes, l)} :: Trial(v, fields, homes, l) == trial(l)
  }

  /** One probe on a document that holds the cut of an earlier one. */
  method Probe(doc: Document, fields: seq<Field>, limit: nat, ghost trial: nat -> Cropped, ghost last: nat, ghost v: Json, ghost homes: seq<Address>)
    returns (candidate: Cropped)
    requires Trials(trial, v, fields, homes) && doc.root == trial(last).content
    modifies doc
    ensures candidate == trial(limit) && doc.root == candidate.content
  {
    assert Trial(v, fields, homes, last) == trial(last) && Trial(v, fields, homes, limit) == trial(limit);
    var made := MakeCandidate(doc, fields, limit, v, homes, Cuts(fields, last));
    candidate := made.value;
  }

  /** Bisection over the limit; every probe reuses the one document. */
  method Widen(doc: Document, empty: Cropped, fields: seq<Field>, longest: nat, cost: Json -> nat, budget: int,
               ghost trial: nat -> Cropped, ghost v: Json, ghost homes: seq<Address>)
    returns (unit: Cropped, ghost limit: nat)
    requires Trials(trial, v, fields, homes) && longest > 0
    requires empty == trial(0) && doc.root == empty.content && cost(empty.content) <= budget
    modifies doc
    ensures limit < longest && unit == trial(limit) && cost(unit.content) <= budget
    ensures limit + 1 < longest ==> cost(trial(limit + 1).content) > budget
  {
    unit, limit := empty, 0;
    ghost var last: nat := 0;
    var low: nat, high: nat := 1, longest - 1;
    while low <= high
      invariant 1 <= low <= high + 1 <= longest && limit == low - 1
      invariant doc.root == trial(last).content
      invariant unit == trial(limit) && cost(unit.content) <= budget
      invariant high + 1 < longest ==> cost(trial(high + 1).content) > budget
      decreases high - low
    {
      var middle := low + (high - low) / 2;
      var candidate := Probe(doc, fields, middle, trial, last, v, homes);
      last := middle;
      if cost(candidate.content) <= budget {
        unit, low, limit := candidate, middle + 1, middle;
      } else {
        high := middle - 1;
      }
    }
  }

  method Search(doc: Document, fields: seq<Field>, cost: Json -> nat, budget: int, ghost v: Json, ghost homes: seq<Address>, ghost before: seq<string>)
    returns (unit: Option<Cropped>, ghost limit: nat)
    requires Printed(v, fields, homes) && |before| == |fields| && doc.root == Fill(v, homes, before)
    modifies doc
    ensures Best(unit, v, fields, homes, limit, cost, budget)
  {
    var longest := Longest(fields);
    var empty := MakeCandidate(doc, fields, 0, v, homes, before);
    if cost(empty.value.content) > budget || longest == 0 { return None, 0; }
    ghost var trial := (l: nat) => Trial(v, fields, homes, l);
    var widest;
    widest, limit := Widen(doc, empty.value, fields, longest, cost, budget, trial, v, homes);
    unit := Some(widest);
  }

  /** A cropped unit fits its budget and is the marked document with every listed text cut to one limit
      and nothing else changed; its spans are the kept prefixes. */
  method CropUnit(root: Json, cost: Json -> nat, budget: int) returns (unit: Option<Cropped>, ghost homes: seq<Address>, ghost limit: nat)
    requires WellFormed(root)
    ensures !root.Obj? ==> unit.None?
    ensures root.Obj? ==> Printed(Mark(root), TextFields(root), homes)
    ensures root.Obj? ==> Best(unit, Mark(root), TextFields(root), homes, limit, cost, budget)
    ensures unit.Some? ==>
              && cost(unit.value.content) <= budget
              && root.Obj? && |homes| == |TextFields(root)|
              && IsCut(Mark(root), TextFields(root), homes, limit, unit.value.content)
  {
    homes, limit := [], 0;
    if !root.Obj? { return None, homes, limit; }
    var fields := TextFields(root);
    var doc := new Document(Mark(root));
    FieldsAreDistinctLeaves(root);
    homes := FieldsArePrinted(root, fields);
    ghost var texts := seq(|fields|, i requires 0 <= i < |fields| => fields[i].text);
    FillWithOwnTexts(Mark(root), homes, texts);
    unit, limit := Search(doc, fields, cost, budget, Mark(root), homes, texts);
    FillIsCut(Mark(root), fields, homes, limit);
  }

  /** Writing every leaf's own text changes nothing. */
  lemma {:induction false} FillWithOwnTexts(v: Json, homes: seq<Address>, texts: seq<string>)
    requires |homes| == |texts| && forall i | 0 <= i < |homes| :: At(v, homes[i]) == Some(Str(texts[i]))
    ensures Fill(v, homes, texts) == v
  {
    if homes != [] {
      var n := |homes| - 1;
      FillWithOwnTexts(v, homes[..n], texts[..n]);
      PutOwnText(v, homes[n], texts[n]);
    }
  }

  lemma {:induction false} PutOwnText(v: Json, a: Address, text: string)
    requires At(v, a) == Some(Str(text))
    ensures Put(v, a, text) == v
    decreases |a|
  {
    if a != [] {
      PutOwnText(Kid(v, a[0]), a[1..], text);
      if v.Arr? {
        assert v.items[a[0] := v.items[a[0]]] == v.items;
      } else {
        assert v.members[a[0] := Member(v.members[a[0]].key, v.members[a[0]].value)] == v.members;
      }
    }
  }
}
