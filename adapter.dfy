/**
  WithAnnotated: turns annotations and a user function of any arity into a
  one-parameter wrapper whose parameter is a synthesised bag with one slot
  per user parameter, the first slots tagged by the annotations.
 */
module Adapter {
  import opened Reflect
  import opened Annotations

  /** The anonymous fx.In member every bag starts with. */
  const InField := Field("In", true, InMarker, "")

  /** The decimal digits of `n`, as `%d` prints them. */
  function Decimal(n: nat): (s: string)
    ensures |s| > 0
    ensures forall k :: 0 <= k < |s| ==> '0' <= s[k] <= '9'
    ensures n < 10 <==> |s| == 1
  {
    if n < 10 then ["0123456789"[n]] else Decimal(n / 10) + ["0123456789"[n % 10]]
  }

  /** Different numbers print differently. */
  lemma {:induction false} DecimalInjective(a: nat, b: nat)
    requires Decimal(a) == Decimal(b)
    ensures a == b
  {
    if a >= 10 && b >= 10 {
      var da, db := Decimal(a), Decimal(b);
      assert da[..|da| - 1] == Decimal(a / 10);
      assert db[..|db| - 1] == Decimal(b / 10);
      DecimalInjective(a / 10, b / 10);
      assert da[|da| - 1] == "0123456789"[a % 10];
      assert db[|db| - 1] == "0123456789"[b % 10];
    }
  }

  /** The name of the slot for user parameter `i`: `Field<i>`. */
  function FieldName(i: nat): string
  {
    "Field" + Decimal(i)
  }

  /** `Field<i>` starts with `F` and gives `i` back after its five-letter prefix. */
  lemma FieldNameParts(i: nat)
    ensures FieldName(i)[0] == 'F' && |FieldName(i)| > 5 && FieldName(i)[5..] == Decimal(i)
  {
  }

  /** The tag of the slot for user parameter `i`: the annotation's tag when there is one, else empty. */
  function SlotTag(annos: seq<Annotation>, i: nat): string
  {
    if i < |annos| then TagOf(annos[i]) else ""
  }

  /** The slot for user parameter `i`. */
  function Slot(annos: seq<Annotation>, paramTypes: seq<Type>, i: nat): Field
    requires i < |paramTypes|
  {
    Field(FieldName(i), false, paramTypes[i], SlotTag(annos, i))
  }

  /** The members of the synthesised bag: fx.In, then one slot per user parameter in order. */
  function Slots(annos: seq<Annotation>, paramTypes: seq<Type>): seq<Field>
  {
    [InField] + seq(|paramTypes|, i requires 0 <= i < |paramTypes| => Slot(annos, paramTypes, i))
  }

  /** A user function, or a value passed where a function was expected;
      an `OtherTarget` stands for a value whose type is not a function type. */
  datatype Target<!T> =
    | FuncTarget(ins: seq<Type>, outs: seq<Type>, call: seq<Value<T>> -> seq<Value<T>>)
    | OtherTarget(typ: Type)

  /** What a synthesised function does when called. */
  datatype Body<!T> =
    | AlwaysFails(err: Error)
    | Forward(numArgs: nat, user: seq<Value<T>> -> seq<Value<T>>)

  /** A synthesised function value: its type and its behaviour. */
  datatype FuncValue<!T> = FuncValue(typ: Type, body: Body<T>)

  /** The function WithAnnotated(annos...)(f) returns. */
  function Adapt<T>(annos: seq<Annotation>, f: Target<T>): (w: FuncValue<T>)
    ensures w.typ.FuncType?
    ensures f.OtherTarget? ==> w.typ.ins == [] && w.typ.outs == [ErrorType] && w.body == AlwaysFails(NotAFunction)
    ensures f.FuncTarget? ==>
      && |w.typ.ins| == 1 && w.typ.ins[0].StructType? && |w.typ.ins[0].fields| == |f.ins| + 1
      && w.typ.outs == f.outs && w.body.Forward? && w.body.numArgs == |f.ins| && w.body.user == f.call
  {
    match f
    case OtherTarget(_) => FuncValue(FuncType([], [ErrorType]), AlwaysFails(NotAFunction))
    case FuncTarget(ins, outs, call) =>
      FuncValue(FuncType([StructType(Slots(annos, ins))], outs), Forward(|ins|, call))
  }

  /** The arguments a synthesised function can be called with: none for the
      failing one, one bag with a value per member for a forwarding one. */
  predicate Accepts<T>(fv: FuncValue<T>, args: seq<Value<T>>)
  {
    match fv.body
    case AlwaysFails(_) => args == []
    case Forward(n, _) => |args| == 1 && args[0].StructValue? && |args[0].fields| == n + 1
  }

  /** The results of calling a synthesised function. */
  function Call<T>(fv: FuncValue<T>, args: seq<Value<T>>): (results: seq<Value<T>>)
    requires Accepts(fv, args)
    ensures fv.body.AlwaysFails? ==> results == [ErrorValue(fv.body.err)]
    ensures fv.body.Forward? ==>
      results == fv.body.user(seq(fv.body.numArgs, i requires 0 <= i < fv.body.numArgs => args[0].fields[i + 1]))
  {
    match fv.body
    case AlwaysFails(e) => [ErrorValue(e)]
    case Forward(n, user) =>
      assert args[0].fields[1..] == seq(fv.body.numArgs, i requires 0 <= i < fv.body.numArgs => args[0].fields[i + 1]);
      user(args[0].fields[1..])
  }

  /** The loop that lays out the bag's members. */
  method BuildSlots(annos: seq<Annotation>, paramTypes: seq<Type>) returns (slots: seq<Field>)
    ensures |slots| == |paramTypes| + 1
    ensures slots[0] == InField
    ensures forall j :: 1 <= j < |slots| ==>
      slots[j].name == FieldName(j - 1) && !slots[j].anonymous && slots[j].typ == paramTypes[j - 1]
    ensures forall j :: 1 <= j < |slots| ==> (slots[j].tag != "" <==> j <= |annos|)
    ensures forall j :: 1 <= j < |slots| && j <= |annos| ==> slots[j].tag == TagOf(annos[j - 1])
    ensures slots == Slots(annos, paramTypes)
  {
    slots := [InField];
    var i := 0;
    while i < |paramTypes|
      invariant 0 <= i <= |paramTypes|
      invariant |slots| == i + 1 && slots[0] == InField
      invariant forall j :: 1 <= j < |slots| ==> slots[j] == Slot(annos, paramTypes, j - 1)
    {
      var field := Field(FieldName(i), false, paramTypes[i], "");
      if i < |annos| {
        field := field.(tag := TagOf(annos[i]));
      }
      assert field == Slot(annos, paramTypes, i);
      AppendSlot(slots, annos, paramTypes, i);
      slots := slots + [field];
      i := i + 1;
    }
    SlotsAt(annos, paramTypes);
    SlotsEqual(slots, annos, paramTypes);
    SlotsShape(annos, paramTypes);
  }

  /** Appending the slot for parameter `i` to the first `i + 1` members of the bag. */
  lemma AppendSlot(slots: seq<Field>, annos: seq<Annotation>, paramTypes: seq<Type>, i: nat)
    requires i < |paramTypes| && |slots| == i + 1 && slots[0] == InField
    requires forall j :: 1 <= j < |slots| ==> slots[j] == Slot(annos, paramTypes, j - 1)
    ensures var next := slots + [Slot(annos, paramTypes, i)];
      && |next| == i + 2 && next[0] == InField
      && forall j :: 1 <= j < |next| ==> next[j] == Slot(annos, paramTypes, j - 1)
  {
  }

  /** A sequence that agrees with the bag member by member is the bag. */
  lemma SlotsEqual(slots: seq<Field>, annos: seq<Annotation>, paramTypes: seq<Type>)
    requires |slots| == |paramTypes| + 1 && slots[0] == InField
    requires forall j :: 1 <= j < |slots| ==> slots[j] == Slot(annos, paramTypes, j - 1)
    ensures slots == Slots(annos, paramTypes)
  {
    SlotsAt(annos, paramTypes);
  }

  /** The bag's members: fx.In, then `Field<j-1>` of parameter type `j - 1`, tagged exactly
      when an annotation is there for it, with that annotation's tag. */
  lemma SlotsShape(annos: seq<Annotation>, paramTypes: seq<Type>)
    ensures var slots := Slots(annos, paramTypes);
      && (forall j :: 1 <= j < |slots| ==>
           slots[j].name == FieldName(j - 1) && !slots[j].anonymous && slots[j].typ == paramTypes[j - 1])
      && (forall j :: 1 <= j < |slots| ==> (slots[j].tag != "" <==> j <= |annos|))
      && (forall j :: 1 <= j < |slots| && j <= |annos| ==> slots[j].tag == TagOf(annos[j - 1]))
  {
    SlotsAt(annos, paramTypes);
  }

  /** Member `j` of the bag, for `j >= 1`, is the slot for parameter `j - 1`. */
  lemma SlotsAt(annos: seq<Annotation>, paramTypes: seq<Type>)
    ensures |Slots(annos, paramTypes)| == |paramTypes| + 1
    ensures Slots(annos, paramTypes)[0] == InField
    ensures forall j :: 1 <= j <= |paramTypes| ==> Slots(annos, paramTypes)[j] == Slot(annos, paramTypes, j - 1)
  {
  }

  /** The loop that copies the user function's result types into `outs`. */
  method CollectOuts(userOuts: seq<Type>) returns (outs: seq<Type>)
    ensures outs == userOuts
  {
    var a := new Type[|userOuts|];
    for i := 0 to |userOuts|
      invariant a[..i] == userOuts[..i]
    {
      a[i] := userOuts[i];
    }
    outs := a[..];
  }

  /** WithAnnotated(annos...)(f). */
  method WithAnnotated<T>(annos: seq<Annotation>, f: Target<T>) returns (w: FuncValue<T>)
    ensures w == Adapt(annos, f)
  {
    if f.OtherTarget? {
      return FuncValue(FuncType([], [ErrorType]), AlwaysFails(NotAFunction));
    }
    var slots := BuildSlots(annos, f.ins);
    var outs := CollectOuts(f.outs);
    w := FuncValue(FuncType([StructType(slots)], outs), Forward(|f.ins|, f.call));
  }

  /** The loop that fills the user function's arguments from the bag: argument `i` is member `i + 1`. */
  method ForwardArgs<T>(bag: seq<Value<T>>, numArgs: nat) returns (ins: seq<Value<T>>)
    requires |bag| == numArgs + 1
    ensures |ins| == numArgs
    ensures forall i :: 0 <= i < numArgs ==> ins[i] == bag[i + 1]
  {
    var a := new Value<T>[numArgs];
    for i := 0 to numArgs
      invariant forall k :: 0 <= k < i ==> a[k] == bag[k + 1]
    {
      a[i] := bag[i + 1];
    }
    ins := a[..];
  }

  /** Calling a synthesised function. */
  method Invoke<T>(fv: FuncValue<T>, args: seq<Value<T>>) returns (results: seq<Value<T>>)
    requires Accepts(fv, args)
    ensures results == Call(fv, args)
  {
    match fv.body
    case AlwaysFails(e) =>
      results := [ErrorValue(e)];
    case Forward(n, user) =>
      var params := args[0];
      var ins := ForwardArgs(params.fields, n);
      assert ins == params.fields[1..];
      results := user(ins);
  }

  /** The bag has one member per user parameter plus fx.In, and no two members share a name. */
  lemma SlotsWellFormed(annos: seq<Annotation>, paramTypes: seq<Type>)
    ensures |Slots(annos, paramTypes)| == |paramTypes| + 1
    ensures forall i, j :: 0 <= i < j < |paramTypes| + 1 ==>
      Slots(annos, paramTypes)[i].name != Slots(annos, paramTypes)[j].name
  {
    var s := Slots(annos, paramTypes);
    SlotsAt(annos, paramTypes);
    forall i, j | 0 <= i < j < |paramTypes| + 1
      ensures s[i].name != s[j].name
    {
      FieldNameParts(j - 1);
      if i == 0 {
        assert s[0].name == "In" && s[0].name[0] == 'I';
      } else if s[i].name == s[j].name {
        FieldNameParts(i - 1);
        assert Decimal(i - 1) == Decimal(j - 1);
        DecimalInjective(i - 1, j - 1);
      }
    }
  }

  /** Annotations beyond the function's arity are ignored. */
  lemma ExtraAnnotationsIgnored(annos: seq<Annotation>, paramTypes: seq<Type>)
    requires |annos| > |paramTypes|
    ensures Slots(annos, paramTypes) == Slots(annos[..|paramTypes|], paramTypes)
  {
  }

  /** The wrapper of a function takes exactly the bag, returns the user's result types in order,
      and calling it calls the user function with bag member `i + 1` as argument `i`. */
  lemma AdaptForwards<T>(annos: seq<Annotation>, f: Target<T>, bag: seq<Value<T>>)
    requires f.FuncTarget? && |bag| == |f.ins| + 1
    ensures Adapt(annos, f).typ == FuncType([StructType(Slots(annos, f.ins))], f.outs)
    ensures Accepts(Adapt(annos, f), [StructValue(bag)])
    ensures Call(Adapt(annos, f), [StructValue(bag)]) == f.call(seq(|f.ins|, i requires 0 <= i < |f.ins| => bag[i + 1]))
  {
    assert seq(|f.ins|, i requires 0 <= i < |f.ins| => bag[i + 1]) == bag[1..];
  }

  /** Anything but a function still yields a value: a function of no arguments
      whose one result is always the "must be called with a function" error. */
  lemma AdaptNonFunction<T>(annos: seq<Annotation>, t: Type)
    requires !t.FuncType?
    ensures Adapt(annos, Target<T>.OtherTarget(t)).typ == FuncType([], [ErrorType])
    ensures Accepts(Adapt(annos, Target<T>.OtherTarget(t)), [])
    ensures Call(Adapt(annos, Target<T>.OtherTarget(t)), []) == [ErrorValue(NotAFunction)]
    ensures Message(NotAFunction) == "WithAnnotated returned function must be called with a function"
  {
  }
}
