/** The model classifier: an optional project filter, then a partition of dataset models
    into valid and empty ones by a recursive emptiness predicate. */
module ModelProcessor {
  import opened Common
  import opened Json

  /** `{ validModels, emptyModels }`. */
  datatype ProcessedModels = ProcessedModels(validModels: seq<JValue>, emptyModels: seq<JValue>)

  /** The message of the `TypeError` thrown when a model is `null` (or the list holds `undefined`). */
  const NullModelError := "TypeError: Cannot read properties of null"

  /** The identity fields that emptiness ignores. */
  predicate IsIdentityKey(key: string) {
    key == "id" || key == "projectId" || key == "derivedFrom"
  }

  predicate IsFieldEntry(e: (string, JValue)) { !IsIdentityKey(e.0) }

  /** `const { id, projectId, derivedFrom, ...fields } = model`, as entries. */
  function Fields(model: JValue): seq<(string, JValue)> {
    Filter(Entries(model), IsFieldEntry)
  }

  /** `isEmptyValue`: null, undefined and `''` are empty; an array or object is empty when
      it has no entries or all of them are empty; anything else is not. */
  predicate IsEmptyValue(v: JValue)
    decreases v
  {
    match v
    case Null => true
    case Undef => true
    case Str(s) => s == ""
    case Arr(items) => |items| == 0 || forall i :: 0 <= i < |items| ==> IsEmptyValue(items[i])
    case Obj(entries) => |entries| == 0 || forall i :: 0 <= i < |entries| ==> IsEmptyValue(entries[i].1)
    case Bool(_) => false
    case Num(_) => false
  }

  /** Some field holds a boolean (`typeof value === 'boolean'`). */
  predicate HasBooleanField(fields: seq<(string, JValue)>) {
    exists i :: 0 <= i < |fields| && fields[i].1.Bool?
  }

  /** `isEmptyModel`: a boolean field makes a model valid whatever its value; otherwise the
      model is empty when every non-identity field is empty. (The source throws on a null
      or undefined model; `ProcessModels` rejects those before classifying.) */
  predicate IsEmptyModel(model: JValue) {
    var fields := Fields(model);
    if HasBooleanField(fields) then false
    else forall i :: 0 <= i < |fields| ==> IsEmptyValue(fields[i].1)
  }

  predicate IsValidModel(model: JValue) { !IsEmptyModel(model) }

  /** JavaScript truthiness of the optional numeric `targetProjectId`. */
  predicate FilterIsActive(targetProjectId: Option<int>) {
    targetProjectId.Some? && targetProjectId.value != 0
  }

  predicate InProject(project: int, model: JValue) { Get(model, "projectId") == Num(project) }

  /** The models that survive the optional project filter. */
  function FilterByProject(targetProjectId: Option<int>, models: seq<JValue>): seq<JValue> {
    if FilterIsActive(targetProjectId) then
      var project := targetProjectId.value;
      Filter(models, (m: JValue) => InProject(project, m))
    else models
  }

  /** One step of the `reduce` callback: push the model onto one of the two lists. */
  function Push(acc: ProcessedModels, model: JValue, isEmpty: JValue -> bool): ProcessedModels {
    if isEmpty(model) then acc.(emptyModels := acc.emptyModels + [model])
    else acc.(validModels := acc.validModels + [model])
  }

  /** `models.reduce(callback, acc)`, where the callback classifies with `isEmpty`. */
  function Reduce(acc: ProcessedModels, models: seq<JValue>, isEmpty: JValue -> bool): ProcessedModels
    decreases |models|
  {
    if models == [] then acc else Reduce(Push(acc, models[0], isEmpty), models[1..], isEmpty)
  }

  /** `processModels`. */
  function ProcessModels(targetProjectId: Option<int>, models: seq<JValue>): Result<ProcessedModels> {
    if exists i :: 0 <= i < |models| && IsNullish(models[i]) then Failure(NullModelError)
    else Success(Reduce(ProcessedModels([], []), FilterByProject(targetProjectId, models), IsEmptyModel))
  }

  /** The accumulating `reduce` appends exactly the valid and the empty models, in order. */
  lemma {:induction false} ReduceIsPartition(acc: ProcessedModels, models: seq<JValue>, isEmpty: JValue -> bool, isValid: JValue -> bool)
    requires forall m :: isValid(m) == !isEmpty(m)
    ensures Reduce(acc, models, isEmpty) == ProcessedModels(
      acc.validModels + Filter(models, isValid),
      acc.emptyModels + Filter(models, isEmpty))
    decreases |models|
  {
    if models != [] {
      var m := models[0];
      var next := Push(acc, m, isEmpty);
      ReduceIsPartition(next, models[1..], isEmpty, isValid);
      var valid := Filter(models[1..], isValid);
      var empty := Filter(models[1..], isEmpty);
      if isEmpty(m) {
        assert Filter(models, isEmpty) == [m] + empty by { FilterCons(models, isEmpty); }
        assert Filter(models, isValid) == valid by { FilterCons(models, isValid); }
        assert next.emptyModels + empty == acc.emptyModels + ([m] + empty);
      } else {
        assert Filter(models, isValid) == [m] + valid by { FilterCons(models, isValid); }
        assert Filter(models, isEmpty) == empty by { FilterCons(models, isEmpty); }
        assert next.validModels + valid == acc.validModels + ([m] + valid);
      }
    }
  }

  /** What `processModels` promises: every filtered model lands in exactly one of the two
      lists, and both lists keep the input order. */
  lemma ProcessModelsPartition(targetProjectId: Option<int>, models: seq<JValue>)
    requires forall i :: 0 <= i < |models| ==> !IsNullish(models[i])
    ensures var filtered := FilterByProject(targetProjectId, models);
      && ProcessModels(targetProjectId, models).Success?
      && var r := ProcessModels(targetProjectId, models).value;
      && r.validModels == Filter(filtered, IsValidModel)
      && r.emptyModels == Filter(filtered, IsEmptyModel)
      && |r.validModels| + |r.emptyModels| == |filtered|
      && multiset(r.validModels) + multiset(r.emptyModels) == multiset(filtered)
      && (forall m :: m in r.validModels <==> m in filtered && !IsEmptyModel(m))
      && (forall m :: m in r.emptyModels <==> m in filtered && IsEmptyModel(m))
  {
    var filtered := FilterByProject(targetProjectId, models);
    ReduceIsPartition(ProcessedModels([], []), filtered, IsEmptyModel, IsValidModel);
    FilterComplement(filtered, IsValidModel, IsEmptyModel);
    forall m ensures m in Filter(filtered, IsValidModel) <==> m in filtered && !IsEmptyModel(m) {
      FilterMembership(filtered, IsValidModel, m);
    }
    forall m ensures m in Filter(filtered, IsEmptyModel) <==> m in filtered && IsEmptyModel(m) {
      FilterMembership(filtered, IsEmptyModel, m);
    }
  }

  /** With a truthy `targetProjectId` only models of that project survive the filter;
      with an undefined or zero one nothing is dropped. */
  lemma ProjectFilterKeepsTarget(targetProjectId: Option<int>, models: seq<JValue>)
    ensures var filtered := FilterByProject(targetProjectId, models);
      && (FilterIsActive(targetProjectId) ==>
            forall m :: m in filtered <==> m in models && InProject(targetProjectId.value, m))
      && (!FilterIsActive(targetProjectId) ==> filtered == models)
  {
    if FilterIsActive(targetProjectId) {
      var project := targetProjectId.value;
      var p := (m: JValue) => InProject(project, m);
      forall m ensures m in Filter(models, p) <==> m in models && InProject(project, m) {
        FilterMembership(models, p, m);
      }
    }
  }

  /** A list holding `null` or `undefined` makes `processModels` throw. */
  lemma ProcessModelsRejectsNull(targetProjectId: Option<int>, models: seq<JValue>, i: nat)
    requires i < |models| && IsNullish(models[i])
    ensures ProcessModels(targetProjectId, models) == Failure(NullModelError)
  {
  }

  /** `processModels([])` returns two empty lists. */
  lemma ProcessNoModels(targetProjectId: Option<int>)
    ensures ProcessModels(targetProjectId, []) == Success(ProcessedModels([], []))
  {
  }

  /** A boolean field, `true` or `false`, makes a model valid. */
  lemma BooleanFieldMakesValid(entries: seq<(string, JValue)>, key: string, b: bool)
    requires !IsIdentityKey(key) && (key, Bool(b)) in entries
    ensures !IsEmptyModel(Obj(entries))
  {
    var i :| 0 <= i < |entries| && entries[i] == (key, Bool(b));
    var fields := Fields(Obj(entries));
    FilterMembership(entries, IsFieldEntry, entries[i]);
    var j :| 0 <= j < |fields| && fields[j] == entries[i];
    assert fields[j].1.Bool?;
  }

  /** A model with nothing but identity fields is empty. */
  lemma OnlyIdentityIsEmpty(entries: seq<(string, JValue)>)
    requires forall i :: 0 <= i < |entries| ==> IsIdentityKey(entries[i].0)
    ensures IsEmptyModel(Obj(entries))
  {
    FilterNone(entries, IsFieldEntry);
  }

  /** Adding, removing or changing an identity field anywhere never changes the classification. */
  lemma IdentityFieldIrrelevant(before: seq<(string, JValue)>, after: seq<(string, JValue)>, key: string, v: JValue)
    requires IsIdentityKey(key)
    ensures IsEmptyModel(Obj(before + [(key, v)] + after)) == IsEmptyModel(Obj(before + after))
  {
    var with := before + [(key, v)];
    FilterAppend(with, after, IsFieldEntry);
    FilterAppend(before, [(key, v)], IsFieldEntry);
    FilterAppend(before, after, IsFieldEntry);
    assert Filter([(key, v)], IsFieldEntry) == [];
    assert Filter(with, IsFieldEntry) == Filter(before, IsFieldEntry);
    assert Fields(Obj(with + after)) == Fields(Obj(before + after));
  }

  /** Otherwise, a model is empty exactly when every non-identity field is empty. */
  lemma EmptyModelIff(entries: seq<(string, JValue)>)
    requires forall i :: 0 <= i < |entries| && !IsIdentityKey(entries[i].0) ==> !entries[i].1.Bool?
    ensures IsEmptyModel(Obj(entries)) <==>
      forall i :: 0 <= i < |entries| && !IsIdentityKey(entries[i].0) ==> IsEmptyValue(entries[i].1)
  {
    var fields := Fields(Obj(entries));
    assert !HasBooleanField(fields) by {
      forall j | 0 <= j < |fields| ensures !fields[j].1.Bool? {
        FilterMembership(entries, IsFieldEntry, fields[j]);
      }
    }
    if IsEmptyModel(Obj(entries)) {
      forall i | 0 <= i < |entries| && !IsIdentityKey(entries[i].0) ensures IsEmptyValue(entries[i].1) {
        FilterMembership(entries, IsFieldEntry, entries[i]);
      }
    } else {
      var j :| 0 <= j < |fields| && !IsEmptyValue(fields[j].1);
      FilterMembership(entries, IsFieldEntry, fields[j]);
    }
  }

  // An independent characterisation of emptiness: a value is empty exactly when no
  // position inside it holds a boolean, a number or a non-empty string.

  /** The `i`-th element of an array, or the value of the `i`-th entry of an object. */
  function Child(v: JValue, i: nat): Option<JValue> {
    match v
    case Arr(items) => if i < |items| then Some(items[i]) else None
    case Obj(entries) => if i < |entries| then Some(entries[i].1) else None
    case _ => None
  }

  /** The value reached from `v` by following `path`, if every step exists. */
  function At(v: JValue, path: seq<nat>): Option<JValue>
    decreases |path|
  {
    if path == [] then Some(v)
    else match Child(v, path[0])
      case None => None
      case Some(c) => At(c, path[1..])
  }

  predicate IsSubstantive(v: JValue) { v.Bool? || v.Num? || (v.Str? && v.s != "") }

  /** A path to a substantive value inside a non-empty value. */
  ghost function SubstancePath(v: JValue): (path: seq<nat>)
    requires !IsEmptyValue(v)
    ensures At(v, path).Some? && IsSubstantive(At(v, path).value)
    decreases v
  {
    match v
    case Arr(items) =>
      var i :| 0 <= i < |items| && !IsEmptyValue(items[i]);
      [i] + SubstancePath(items[i])
    case Obj(entries) =>
      var i :| 0 <= i < |entries| && !IsEmptyValue(entries[i].1);
      assert entries[i].1 < entries[i];
      [i] + SubstancePath(entries[i].1)
    case Bool(_) => []
    case Num(_) => []
    case Str(_) => []
  }

  lemma {:induction false} EmptyHasNoSubstance(v: JValue, path: seq<nat>)
    requires IsEmptyValue(v)
    ensures At(v, path).Some? ==> !IsSubstantive(At(v, path).value)
    decreases |path|
  {
    if path != [] {
      match Child(v, path[0])
      case None =>
      case Some(c) => EmptyHasNoSubstance(c, path[1..]);
    }
  }

  /** `isEmptyValue(v)` holds exactly when nothing inside `v`, at any depth, is a boolean,
      a number or a non-empty string. */
  lemma EmptyValueIffNoSubstance(v: JValue)
    ensures IsEmptyValue(v) <==> forall path :: At(v, path).Some? ==> !IsSubstantive(At(v, path).value)
  {
    if IsEmptyValue(v) {
      forall path ensures At(v, path).Some? ==> !IsSubstantive(At(v, path).value) {
        EmptyHasNoSubstance(v, path);
      }
    } else {
      var path := SubstancePath(v);
      assert At(v, path).Some? && IsSubstantive(At(v, path).value);
    }
  }
}
