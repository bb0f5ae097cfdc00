/** Merging the tool call fragments of a chat completion. */
module ToolCalls {
  import opened Types
  import opened Merging
  import opened Chat

  // ---------------------------------------------------------------------------------------------
  // Tool calls

  function DeltasOf(c: ChatChunk): seq<ToolCall> {
    if c.choices == [] then [] else c.choices[0].toolCalls
  }

  function NewCall(index: nat): ToolCall {
    ToolCall(Some(index), "", "", None, None)
  }

  function AbsorbFunction(f: Option<Function>, delta: Option<Function>): Option<Function> {
    if delta.None? then f
    else
      var was := if f.Some? then f.value else Function("", "");
      Some(Function(if delta.value.name != "" then delta.value.name else was.name, was.arguments + delta.value.arguments))
  }

  function AbsorbCustom(c: Option<Custom>, delta: Option<Custom>): Option<Custom> {
    if delta.None? then c
    else
      var was := if c.Some? then c.value else Custom("", "");
      Some(Custom(if delta.value.name != "" then delta.value.name else was.name, was.input + delta.value.input))
  }

  /** An entry after a delta for it. */
  function Absorb(entry: ToolCall, delta: ToolCall): ToolCall {
    ToolCall(entry.index,
             if delta.id != "" then delta.id else entry.id,
             if delta.custom.Some? && delta.custom.value.name != "" then "custom"
             else if delta.func.Some? && delta.func.value.name != "" then "function"
             else entry.kind,
             AbsorbFunction(entry.func, delta.func),
             AbsorbCustom(entry.custom, delta.custom))
  }

  type Calls = map<nat, ToolCall>

  predicate Indexed(deltas: seq<ToolCall>) {
    forall d | d in deltas :: d.index.Some?
  }

  function Entry(calls: Calls, index: nat): ToolCall {
    if index in calls then calls[index] else NewCall(index)
  }

  /** The table after a delta. */
  function AbsorbInto(calls: Calls, d: ToolCall): Calls
    requires d.index.Some?
  {
    calls[d.index.value := Absorb(Entry(calls, d.index.value), d)]
  }

  /** All deltas absorbed in order, each into the entry of its index. */
  function Fold(deltas: seq<ToolCall>): Calls
    requires Indexed(deltas)
    decreases |deltas|
  {
    if deltas == [] then map[]
    else
      var init, last := deltas[..|deltas| - 1], deltas[|deltas| - 1];
      AbsorbInto(Fold(init), last)
  }

  lemma FoldAppend(deltas: seq<ToolCall>, d: ToolCall)
    requires Indexed(deltas) && d.index.Some?
    ensures Indexed(deltas + [d])
    ensures Fold(deltas + [d]) == AbsorbInto(Fold(deltas), d)
  {
    assert (deltas + [d])[..|deltas|] == deltas;
  }

  lemma NextDelta(seen: seq<ToolCall>, deltas: seq<ToolCall>, j: nat)
    requires j < |deltas| && Indexed(seen + deltas[..j]) && deltas[j].index.Some?
    ensures Indexed(seen + deltas[..j + 1])
    ensures Fold(seen + deltas[..j + 1]) == AbsorbInto(Fold(seen + deltas[..j]), deltas[j])
  {
    assert seen + deltas[..j + 1] == (seen + deltas[..j]) + [deltas[j]];
    FoldAppend(seen + deltas[..j], deltas[j]);
  }

  /** Absorbs one chunk's deltas into the table, up to the first one without an index. */
  method AbsorbDeltas(before: Calls, deltas: seq<ToolCall>, ghost seen: seq<ToolCall>) returns (table: Calls, panicked: bool)
    requires Indexed(seen) && before == Fold(seen)
    ensures panicked <==> !Indexed(deltas)
    ensures !panicked ==> Indexed(seen + deltas) && table == Fold(seen + deltas)
  {
    table, panicked := before, false;
    assert seen + deltas[..0] == seen;
    for j := 0 to |deltas|
      invariant Indexed(seen + deltas[..j]) && table == Fold(seen + deltas[..j])
    {
      if deltas[j].index.None? {
        assert deltas[j] in deltas;
        return table, true;
      }
      NextDelta(seen, deltas, j);
      table := AbsorbInto(table, deltas[j]);
    }
    assert deltas[..|deltas|] == deltas;
    assert forall d | d in deltas :: d in seen + deltas;
  }

  /** The tool call fragments of the chunks' first choices, in order. */
  function AllDeltas(chunks: seq<ChatChunk>): seq<ToolCall> {
    Flatten(seq(|chunks|, i requires 0 <= i < |chunks| => if chunks[i].choices == [] then [] else chunks[i].choices[0].toolCalls))
  }

  lemma DeltasAreThoseOfTheFirstChoices(chunks: seq<ChatChunk>)
    ensures Collect(chunks, DeltasOf) == AllDeltas(chunks)
  {
    CollectIsFlatten(chunks, DeltasOf, seq(|chunks|, i requires 0 <= i < |chunks| =>
      if chunks[i].choices == [] then [] else chunks[i].choices[0].toolCalls));
  }

  /** Merges the tool calls of all chunks; a delta without an index is a panic. The calls come in no
      particular order. */
  method MergeToolCalls(chunks: seq<ChatChunk>) returns (calls: Option<seq<ToolCall>>, panicked: bool)
    ensures panicked <==> !Indexed(AllDeltas(chunks))
    ensures !panicked ==>
              var merged := Fold(AllDeltas(chunks));
              && (calls.None? <==> merged == map[])
              && (calls.Some? ==> IsListing(calls.value, merged))
  {
    DeltasAreThoseOfTheFirstChoices(chunks);
    var table: Calls := map[];
    calls, panicked := None, false;
    for k := 0 to |chunks|
      invariant Indexed(Collect(chunks[..k], DeltasOf)) && table == Fold(Collect(chunks[..k], DeltasOf))
    {
      var deltas := DeltasOf(chunks[k]);
      table, panicked := AbsorbDeltas(table, deltas, Collect(chunks[..k], DeltasOf));
      assert chunks[..k + 1][..k] == chunks[..k];
      if panicked {
        CollectHasPrefix(chunks, k + 1);
        return None, true;
      }
    }
    assert chunks[..|chunks|] == chunks;
    var list := List(table);
    calls := if list != [] then Some(list) else None;
  }

  lemma CollectHasPrefix(chunks: seq<ChatChunk>, k: nat)
    requires k <= |chunks|
    ensures forall d :: d in Collect(chunks[..k], DeltasOf) ==> d in Collect(chunks, DeltasOf)
  {
    CollectAppend(chunks[..k], chunks[k..], DeltasOf);
    assert chunks[..k] + chunks[k..] == chunks;
  }

  /** The list holds every entry of the table once. */
  ghost predicate IsListing(list: seq<ToolCall>, table: Calls) {
    && |list| == |table|
    && (forall i :: 0 <= i < |list| ==> exists k :: k in table && table[k] == list[i])
    && (forall k :: k in table ==> table[k] in list)
  }

  method List(table: Calls) returns (list: seq<ToolCall>)
    ensures IsListing(list, table)
  {
    list := [];
    var rest := table.Keys;
    while rest != {}
      invariant rest <= table.Keys
      invariant |list| + |rest| == |table|
      invariant forall i :: 0 <= i < |list| ==> exists k :: k in table && table[k] == list[i]
      invariant forall k :: k in table && k !in rest ==> table[k] in list
    {
      var k :| k in rest;
      rest := rest - {k};
      list := list + [table[k]];
    }
  }

  // ---------------------------------------------------------------------------------------------
  // Merging is a homomorphism

  /** Two merged calls of the same index, the second one later. */
  function Combine(a: ToolCall, b: ToolCall): ToolCall {
    ToolCall(a.index,
             if b.id != "" then b.id else a.id,
             if b.kind != "" then b.kind else a.kind,
             AbsorbFunction(a.func, b.func),
             AbsorbCustom(a.custom, b.custom))
  }

  function CombineAll(a: Calls, b: Calls): Calls {
    map k | k in a.Keys + b.Keys ::
      if k in a && k in b then Combine(a[k], b[k]) else if k in a then a[k] else b[k]
  }

  lemma CombineIsAssociative(a: ToolCall, b: ToolCall, c: ToolCall)
    ensures Combine(Combine(a, b), c) == Combine(a, Combine(b, c))
  {
    AbsorbFunctionAssociates(a.func, b.func, c.func);
    AbsorbCustomAssociates(a.custom, b.custom, c.custom);
  }

  lemma AbsorbFunctionAssociates(a: Option<Function>, b: Option<Function>, c: Option<Function>)
    ensures AbsorbFunction(AbsorbFunction(a, b), c) == AbsorbFunction(a, AbsorbFunction(b, c))
  {
    if b.Some? && c.Some? {
      var was := if a.Some? then a.value.arguments else "";
      assert (was + b.value.arguments) + c.value.arguments == was + (b.value.arguments + c.value.arguments);
    } else if c.Some? {
      assert "" + c.value.arguments == c.value.arguments;
    }
  }

  lemma AbsorbCustomAssociates(a: Option<Custom>, b: Option<Custom>, c: Option<Custom>)
    ensures AbsorbCustom(AbsorbCustom(a, b), c) == AbsorbCustom(a, AbsorbCustom(b, c))
  {
    if b.Some? && c.Some? {
      var was := if a.Some? then a.value.input else "";
      assert (was + b.value.input) + c.value.input == was + (b.value.input + c.value.input);
    } else if c.Some? {
      assert "" + c.value.input == c.value.input;
    }
  }

  lemma AssociativeAt(a: Calls, b: Calls, c: Calls, k: nat)
    requires k in a || k in b || k in c
    ensures CombineAll(CombineAll(a, b), c)[k] == CombineAll(a, CombineAll(b, c))[k]
  {
    if k in a && k in b && k in c {
      CombineIsAssociative(a[k], b[k], c[k]);
    }
  }

  lemma CombineAllIsAssociative(a: Calls, b: Calls, c: Calls)
    ensures CombineAll(CombineAll(a, b), c) == CombineAll(a, CombineAll(b, c))
  {
    var left, right := CombineAll(CombineAll(a, b), c), CombineAll(a, CombineAll(b, c));
    assert left.Keys == right.Keys == a.Keys + b.Keys + c.Keys;
    forall k | k in left
      ensures left[k] == right[k]
    {
      AssociativeAt(a, b, c, k);
    }
  }

  /** Absorbing a delta into an entry is combining the entry with a call made from the delta alone. */
  lemma AbsorbIsCombine(entry: ToolCall, d: ToolCall, index: nat)
    ensures Absorb(entry, d) == Combine(entry, Absorb(NewCall(index), d))
    ensures entry == NewCall(index) ==> Combine(NewCall(index), Absorb(NewCall(index), d)) == Absorb(NewCall(index), d)
  {
    if d.func.Some? {
      assert "" + d.func.value.arguments == d.func.value.arguments;
    }
    if d.custom.Some? {
      assert "" + d.custom.value.input == d.custom.value.input;
    }
  }

  lemma OneDeltaAbsorbed(a: Calls, b: Calls, d: ToolCall)
    requires d.index.Some?
    ensures CombineAll(a, AbsorbInto(b, d)) == AbsorbInto(CombineAll(a, b), d)
  {
    var i := d.index.value;
    AbsorbIsCombine(Entry(CombineAll(a, b), i), d, i);
    AbsorbIsCombine(Entry(b, i), d, i);
    if i in a && i in b {
      CombineIsAssociative(a[i], b[i], Absorb(NewCall(i), d));
    }
  }

  /** Merging xs followed by ys is combining the two merges. */
  lemma {:induction false} FoldIsHomomorphism(xs: seq<ToolCall>, ys: seq<ToolCall>)
    requires Indexed(xs) && Indexed(ys)
    ensures Indexed(xs + ys) && Fold(xs + ys) == CombineAll(Fold(xs), Fold(ys))
    decreases |ys|
  {
    if ys == [] {
      assert xs + ys == xs;
      assert CombineAll(Fold(xs), map[]) == Fold(xs);
    } else {
      var init, last := ys[..|ys| - 1], ys[|ys| - 1];
      assert ys == init + [last];
      FoldIsHomomorphism(xs, init);
      assert xs + ys == (xs + init) + [last];
      FoldAppend(xs + init, last);
      FoldAppend(init, last);
      OneDeltaAbsorbed(Fold(xs), Fold(init), last);
    }
  }

  /** Merging is a homomorphism on chunks, and the combination is associative. */
  lemma MergingToolCallsIsHomomorphism(xs: seq<ChatChunk>, ys: seq<ChatChunk>, others: Calls)
    requires Indexed(Collect(xs, DeltasOf)) && Indexed(Collect(ys, DeltasOf))
    ensures Indexed(Collect(xs + ys, DeltasOf))
    ensures Fold(Collect(xs + ys, DeltasOf)) == CombineAll(Fold(Collect(xs, DeltasOf)), Fold(Collect(ys, DeltasOf)))
    ensures CombineAll(CombineAll(Fold(Collect(xs, DeltasOf)), Fold(Collect(ys, DeltasOf))), others)
         == CombineAll(Fold(Collect(xs, DeltasOf)), CombineAll(Fold(Collect(ys, DeltasOf)), others))
  {
    CollectAppend(xs, ys, DeltasOf);
    FoldIsHomomorphism(Collect(xs, DeltasOf), Collect(ys, DeltasOf));
    CombineAllIsAssociative(Fold(Collect(xs, DeltasOf)), Fold(Collect(ys, DeltasOf)), others);
  }

  // ---------------------------------------------------------------------------------------------
  // What the merge means

  /** The deltas of an index, in order. */
  function DeltasAt(deltas: seq<ToolCall>, i: nat): seq<ToolCall> {
    if deltas == [] then []
    else
      var before, last := DeltasAt(deltas[..|deltas| - 1], i), deltas[|deltas| - 1];
      if last.index == Some(i) then before + [last] else before
  }

  function ArgumentsOf(d: ToolCall): string {
    if d.func.Some? then d.func.value.arguments else ""
  }

  function InputOf(d: ToolCall): string {
    if d.custom.Some? then d.custom.value.input else ""
  }

  function NameOf(d: ToolCall): string {
    if d.func.Some? then d.func.value.name else ""
  }

  function CustomNameOf(d: ToolCall): string {
    if d.custom.Some? then d.custom.value.name else ""
  }

  /** What kind of call a delta tells: one that names a custom tool is custom, else one that names a function. */
  function KindOf(d: ToolCall): string {
    if CustomNameOf(d) != "" then "custom" else if NameOf(d) != "" then "function" else ""
  }

  function IdOf(d: ToolCall): string { d.id }

  /** The last non-empty text f finds. */
  function LastNonEmpty(deltas: seq<ToolCall>, f: ToolCall -> string): string {
    if deltas == [] then ""
    else if f(deltas[|deltas| - 1]) != "" then f(deltas[|deltas| - 1])
    else LastNonEmpty(deltas[..|deltas| - 1], f)
  }

  /** What a merged call holds: the fragments' arguments and custom inputs in order, the last id, kind and names
      told, and a function or custom part exactly if a fragment has one. */
  ghost predicate Merges(c: ToolCall, fragments: seq<ToolCall>) {
    && c.id == LastNonEmpty(fragments, IdOf) && c.kind == LastNonEmpty(fragments, KindOf)
    && MergesFunction(c, fragments) && MergesCustom(c, fragments)
  }

  ghost predicate MergesFunction(c: ToolCall, fragments: seq<ToolCall>) {
    && ArgumentsOf(c) == Collect(fragments, ArgumentsOf)
    && NameOf(c) == LastNonEmpty(fragments, NameOf)
    && (c.func.Some? <==> HasFunction(fragments))
  }

  ghost predicate MergesCustom(c: ToolCall, fragments: seq<ToolCall>) {
    && InputOf(c) == Collect(fragments, InputOf)
    && CustomNameOf(c) == LastNonEmpty(fragments, CustomNameOf)
    && (c.custom.Some? <==> HasCustom(fragments))
  }

  lemma OneMoreText(fragments: seq<ToolCall>, d: ToolCall, f: ToolCall -> string)
    ensures LastNonEmpty(fragments + [d], f) == if f(d) != "" then f(d) else LastNonEmpty(fragments, f)
    ensures Collect(fragments + [d], f) == Collect(fragments, f) + f(d)
  {
    assert (fragments + [d])[..|fragments|] == fragments;
  }

  predicate HasFunction(fragments: seq<ToolCall>) {
    exists d :: d in fragments && d.func.Some?
  }

  predicate HasCustom(fragments: seq<ToolCall>) {
    exists d :: d in fragments && d.custom.Some?
  }

  lemma OneMorePart(fragments: seq<ToolCall>, d: ToolCall)
    ensures HasFunction(fragments + [d]) <==> HasFunction(fragments) || d.func.Some?
    ensures HasCustom(fragments + [d]) <==> HasCustom(fragments) || d.custom.Some?
  {
    assert forall x :: x in fragments + [d] <==> x in fragments || x == d;
  }

  lemma OneMoreFunction(c: ToolCall, fragments: seq<ToolCall>, d: ToolCall)
    requires MergesFunction(c, fragments)
    ensures MergesFunction(Absorb(c, d), fragments + [d])
  {
    OneMoreText(fragments, d, ArgumentsOf);
    OneMoreText(fragments, d, NameOf);
    OneMorePart(fragments, d);
  }

  lemma OneMoreCustom(c: ToolCall, fragments: seq<ToolCall>, d: ToolCall)
    requires MergesCustom(c, fragments)
    ensures MergesCustom(Absorb(c, d), fragments + [d])
  {
    OneMoreText(fragments, d, InputOf);
    OneMoreText(fragments, d, CustomNameOf);
    OneMorePart(fragments, d);
  }

  lemma OneMoreFragment(c: ToolCall, fragments: seq<ToolCall>, d: ToolCall)
    requires Merges(c, fragments)
    ensures Merges(Absorb(c, d), fragments + [d])
  {
    OneMoreText(fragments, d, IdOf);
    OneMoreText(fragments, d, KindOf);
    OneMoreFunction(c, fragments, d);
    OneMoreCustom(c, fragments, d);
  }

  /** There is one call per distinct index, and it merges the deltas of that index. */
  lemma {:induction false} MergedCallsAreFragmentsInOrder(deltas: seq<ToolCall>, i: nat)
    requires Indexed(deltas)
    ensures i in Fold(deltas) <==> DeltasAt(deltas, i) != []
    ensures i in Fold(deltas) ==> Fold(deltas)[i].index == Some(i) && Merges(Fold(deltas)[i], DeltasAt(deltas, i))
    decreases |deltas|
  {
    if deltas != [] {
      var init, last := deltas[..|deltas| - 1], deltas[|deltas| - 1];
      assert last in deltas;
      MergedCallsAreFragmentsInOrder(init, i);
      if last.index == Some(i) {
        OneMoreFragment(Entry(Fold(init), i), DeltasAt(init, i), last);
      }
    }
  }

  /** The delta that repeats only the index and carries the rest of an argument fragment. */
  function Remainder(d: ToolCall, rest: string): ToolCall {
    ToolCall(d.index, "", "", Some(Function("", rest)), None)
  }

  function WithArguments(d: ToolCall, arguments: string): ToolCall
    requires d.func.Some?
  {
    d.(func := Some(Function(d.func.value.name, arguments)))
  }

  lemma AbsorbInTwoParts(entry: ToolCall, d: ToolCall, a: string, b: string)
    requires d.func.Some? && d.func.value.arguments == a + b
    ensures Absorb(entry, d) == Absorb(Absorb(entry, WithArguments(d, a)), Remainder(d, b))
  {
    var was := if entry.func.Some? then entry.func.value.arguments else "";
    assert was + (a + b) == (was + a) + b;
  }

  lemma FoldInTwoParts(xs: seq<ToolCall>, d: ToolCall, a: string, b: string)
    requires Indexed(xs) && d.index.Some? && d.func.Some? && d.func.value.arguments == a + b
    ensures var split := xs + [WithArguments(d, a)] + [Remainder(d, b)];
            Indexed(xs + [d]) && Indexed(split) && Fold(xs + [d]) == Fold(split)
  {
    FoldAppend(xs, d);
    FoldAppend(xs, WithArguments(d, a));
    FoldAppend(xs + [WithArguments(d, a)], Remainder(d, b));
    AbsorbInTwoParts(Entry(Fold(xs), d.index.value), d, a, b);
  }

  /** Splitting an argument fragment over two deltas changes nothing, wherever the delta occurs. */
  lemma SplittingAFragmentChangesNothing(xs: seq<ToolCall>, d: ToolCall, a: string, b: string, ys: seq<ToolCall>)
    requires Indexed(xs) && Indexed(ys) && d.index.Some? && d.func.Some?
    requires d.func.value.arguments == a + b
    ensures var split := xs + [WithArguments(d, a)] + [Remainder(d, b)];
            Indexed(xs + [d] + ys) && Indexed(split + ys) && Fold(xs + [d] + ys) == Fold(split + ys)
  {
    FoldInTwoParts(xs, d, a, b);
    FoldIsHomomorphism(xs + [d], ys);
    FoldIsHomomorphism(xs + [WithArguments(d, a)] + [Remainder(d, b)], ys);
  }
}
