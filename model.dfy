/** A model over one table (src/classes/Model.class.ts): six hook slots,
    the before → action → after order in which `runWithHooks` runs a
    database action, and the primary key type guard of the `*ByPk`
    methods. Hooks and actions are caller code and database calls: a hook
    is modelled by the outcome it gives for its arguments, an action by the
    result it resolves to or the error it throws. */
module Models {
  import opened JsValue
  import opened TableOptions
  import opened Tables

  const InvalidHookTypeError: string :=
    "INVALID_HOOK_TYPE: Hook type must be one of 'beforeCreate', 'afterCreate', 'beforeUpdate', 'afterUpdate', 'beforeDestroy', 'afterDestroy'"
  const UuidKeyError: string := "INVALID_PK_TYPE: pkey must be a string if pkType is uuid"
  const SerialKeyError: string := "INVALID_PK_TYPE: pkey must be a number if pkType is serial"

  /** The hook type names, in slot order. */
  const HookTypes: seq<string> :=
    ["beforeCreate", "afterCreate", "beforeUpdate", "afterUpdate", "beforeDestroy", "afterDestroy"]

  /** The slot a hook type name selects, if it is one of the six. */
  function HookSlot(hookType: string): (r: Option<nat>)
    ensures r.Some? <==> hookType in HookTypes
    ensures r.Some? ==> r.value < |HookTypes| && HookTypes[r.value] == hookType
  {
    if hookType == "beforeCreate" then Some(0)
    else if hookType == "afterCreate" then Some(1)
    else if hookType == "beforeUpdate" then Some(2)
    else if hookType == "afterUpdate" then Some(3)
    else if hookType == "beforeDestroy" then Some(4)
    else if hookType == "afterDestroy" then Some(5)
    else None
  }

  /** `before && typeof before === 'function'`: the slot holds a hook to run. */
  predicate IsHook(h: Value)
  {
    Truthy(h) && TypeOf(h) == "function"
  }

  /** What a hook gives when it is called with a value (all inputs, or the
      action's result) and the table's column names: it returns, or throws. */
  type HookRunner = (Value, Value, seq<string>) -> Outcome

  /** The steps `runWithHooks` takes. */
  datatype Step = BeforeHook | Action | AfterHook

  /** The place of a step in the order before → action → after. */
  function Rank(s: Step): nat
  {
    match s
    case BeforeHook => 0
    case Action => 1
    case AfterHook => 2
  }

  /** The result and the steps taken when `before` and `after` surround an
      action. The steps keep the order before → action → after, each at
      most once; the before hook runs exactly when it is set, and the
      action runs exactly when the before hook does not throw; the after
      hook runs exactly when the action resolved and a hook is set. A
      result that is not an error is the action's own. */
  function Hooked(before: Value, after: Value, allInputs: Value, action: Result<Value>,
                  runHook: HookRunner, names: seq<string>): (r: (Result<Value>, seq<Step>))
    ensures forall i, j :: 0 <= i < j < |r.1| ==> Rank(r.1[i]) < Rank(r.1[j])
    ensures BeforeHook in r.1 <==> IsHook(before)
    ensures Action in r.1 <==> !(IsHook(before) && runHook(before, allInputs, names).Fail?)
    ensures AfterHook in r.1 <==> Action in r.1 && action.Ok? && IsHook(after)
    ensures r.0.Ok? ==> r.0 == action && Action in r.1
    ensures Action in r.1 && action.Err? ==> r.0 == action
    ensures !(Action in r.1) ==> r.0 == Err(runHook(before, allInputs, names).error)
    ensures Action in r.1 && action.Ok? && !(IsHook(after) && runHook(after, action.value, names).Fail?) ==>
      r.0 == action
    ensures AfterHook in r.1 && runHook(after, action.value, names).Fail? ==>
      r.0 == Err(runHook(after, action.value, names).error)
  {
    var pre := if IsHook(before) then [BeforeHook] else [];
    if IsHook(before) && runHook(before, allInputs, names).Fail? then
      (Err(runHook(before, allInputs, names).error), pre)
    else if action.Err? then (action, pre + [Action])
    else if IsHook(after) then
      var outcome := runHook(after, action.value, names);
      (if outcome.Fail? then Err(outcome.error) else action, pre + [Action] + [AfterHook])
    else (action, pre + [Action])
  }

  /** `#pkeyCheck(pkey)`: a `uuid` key must be a string and a `serial`
      key a number; any other key type accepts any key. */
  function PkeyCheck(pkType: string, pkey: Value): (r: Outcome)
    ensures r.Fail? <==> (pkType == "uuid" && !pkey.Str?) || (pkType == "serial" && !pkey.Num?)
    ensures r.Fail? && pkType == "uuid" ==> r.error == UuidKeyError
    ensures r.Fail? && pkType == "serial" ==> r.error == SerialKeyError
  {
    if pkType == "uuid" && TypeOf(pkey) != "string" then Fail(UuidKeyError)
    else if pkType == "serial" && TypeOf(pkey) != "number" then Fail(SerialKeyError)
    else Pass
  }

  class Model {
    const table: Table
    var beforeCreateHook: Value
    var afterCreateHook: Value
    var beforeUpdateHook: Value
    var afterUpdateHook: Value
    var beforeDestroyHook: Value
    var afterDestroyHook: Value

    /** The table's configuration is complete and typed. */
    predicate Valid()
    {
      table.Valid()
    }

    /** The six hook slots, in the order of `HookTypes`. */
    function Slots(): (r: seq<Value>)
      reads this
      ensures |r| == |HookTypes|
    {
      [beforeCreateHook, afterCreateHook, beforeUpdateHook, afterUpdateHook, beforeDestroyHook, afterDestroyHook]
    }

    /** `new Model(tableName, config)`: a table with no columns of its own
        and no hooks. */
    constructor (tableName: string, input: Option<map<string, Setting>>)
      requires input.Some? ==> Typed(input.value)
      ensures Valid() && fresh(table) && table.config == TableConfig(input)
      ensures table.name == Prefix(table.config) + tableName && table.Layout([])
      ensures table.stampNames == DefaultStampNames
      ensures fresh(table.crudQuery) && table.crudQuery.tableName == tableName
      ensures table.crudQuery.columns == table.ColumnNames(false)
      ensures table.crudQuery.query == "" && table.crudQuery.values == []
      ensures forall i :: 0 <= i < |Slots()| ==> Slots()[i] == Undef
    {
      table := new Table(tableName, [], input);
      beforeCreateHook := Undef;
      afterCreateHook := Undef;
      beforeUpdateHook := Undef;
      afterUpdateHook := Undef;
      beforeDestroyHook := Undef;
      afterDestroyHook := Undef;
    }

    /** `beforeCreate(hook)`: only that slot changes. */
    method BeforeCreate(hook: Value)
      modifies this
      ensures Slots() == old(Slots())[0 := hook]
    {
      beforeCreateHook := hook;
    }

    /** `afterCreate(hook)`: only that slot changes. */
    method AfterCreate(hook: Value)
      modifies this
      ensures Slots() == old(Slots())[1 := hook]
    {
      afterCreateHook := hook;
    }

    /** `beforeUpdate(hook)`: only that slot changes. */
    method BeforeUpdate(hook: Value)
      modifies this
      ensures Slots() == old(Slots())[2 := hook]
    {
      beforeUpdateHook := hook;
    }

    /** `afterUpdate(hook)`: only that slot changes. */
    method AfterUpdate(hook: Value)
      modifies this
      ensures Slots() == old(Slots())[3 := hook]
    {
      afterUpdateHook := hook;
    }

    /** `beforeDestroy(hook)`: only that slot changes. */
    method BeforeDestroy(hook: Value)
      modifies this
      ensures Slots() == old(Slots())[4 := hook]
    {
      beforeDestroyHook := hook;
    }

    /** `afterDestroy(hook)`: only that slot changes. */
    method AfterDestroy(hook: Value)
      modifies this
      ensures Slots() == old(Slots())[5 := hook]
    {
      afterDestroyHook := hook;
    }

    /** `useHook(type, hook)`: one of the six type names sets exactly its
        slot; any other name is refused with every slot unchanged. */
    method UseHook(hookType: string, hook: Value) returns (r: Outcome)
      modifies this
      ensures HookSlot(hookType).Some? ==> r == Pass && Slots() == old(Slots())[HookSlot(hookType).value := hook]
      ensures HookSlot(hookType).None? ==> r == Fail(InvalidHookTypeError) && Slots() == old(Slots())
    {
      r := Pass;
      if hookType == "beforeCreate" {
        beforeCreateHook := hook;
      } else if hookType == "afterCreate" {
        afterCreateHook := hook;
      } else if hookType == "beforeUpdate" {
        beforeUpdateHook := hook;
      } else if hookType == "afterUpdate" {
        afterUpdateHook := hook;
      } else if hookType == "beforeDestroy" {
        beforeDestroyHook := hook;
      } else if hookType == "afterDestroy" {
        afterDestroyHook := hook;
      } else {
        r := Fail(InvalidHookTypeError);
      }
    }

    /** The operations `runWithHooks` knows. */
    predicate IsOperation(operation: string)
    {
      operation == "Create" || operation == "Update" || operation == "Destroy"
    }

    /** The before hook of an operation. */
    function BeforeOf(operation: string): Value
      reads this
      requires IsOperation(operation)
    {
      if operation == "Create" then beforeCreateHook
      else if operation == "Update" then beforeUpdateHook
      else beforeDestroyHook
    }

    /** The after hook of an operation. */
    function AfterOf(operation: string): Value
      reads this
      requires IsOperation(operation)
    {
      if operation == "Create" then afterCreateHook
      else if operation == "Update" then afterUpdateHook
      else afterDestroyHook
    }

    /** `runWithHooks(operation, allInputs, fn)`: an unknown operation is
        refused before any step runs. Otherwise the operation's before hook
        runs on all inputs (when set), then the action, then the after hook
        on the action's result (when set), each hook also given the table's
        column names with timestamps. */
    method RunWithHooks(operation: string, allInputs: Value, action: Result<Value>, runHook: HookRunner)
      returns (r: Result<Value>, trace: seq<Step>)
      requires Valid()
      ensures !IsOperation(operation) ==> r == Err(InvalidHookTypeError) && trace == []
      ensures IsOperation(operation) ==>
        (r, trace) == Hooked(BeforeOf(operation), AfterOf(operation), allInputs, action, runHook, table.ColumnNames(true))
    {
      var before: Value;
      var after: Value;
      if operation == "Create" {
        before, after := beforeCreateHook, afterCreateHook;
      } else if operation == "Update" {
        before, after := beforeUpdateHook, afterUpdateHook;
      } else if operation == "Destroy" {
        before, after := beforeDestroyHook, afterDestroyHook;
      } else {
        return Err(InvalidHookTypeError), [];
      }
      var names := table.ColumnNames(true);
      trace := [];
      if Truthy(before) && TypeOf(before) == "function" {
        trace := [BeforeHook];
        var outcome := runHook(before, allInputs, names);
        if outcome.Fail? {
          return Err(outcome.error), trace;
        }
      }
      trace := trace + [Action];
      if action.Err? {
        return action, trace;
      }
      r := action;
      if Truthy(after) && TypeOf(after) == "function" {
        trace := trace + [AfterHook];
        var outcome := runHook(after, action.value, names);
        if outcome.Fail? {
          r := Err(outcome.error);
        }
      }
    }

    /** `create(data)`: the insert runs between the create hooks. */
    method Create(data: Value, action: Result<Value>, runHook: HookRunner) returns (r: Result<Value>, trace: seq<Step>)
      requires Valid()
      ensures (r, trace) == Hooked(beforeCreateHook, afterCreateHook, data, action, runHook, table.ColumnNames(true))
    {
      r, trace := RunWithHooks("Create", data, action, runHook);
    }

    /** `createMany(data)`: the inserts run between the create hooks, which
        see the whole list. */
    method CreateMany(data: seq<Value>, action: Result<Value>, runHook: HookRunner) returns (r: Result<Value>, trace: seq<Step>)
      requires Valid()
      ensures (r, trace) == Hooked(beforeCreateHook, afterCreateHook, Arr(data), action, runHook, table.ColumnNames(true))
    {
      r, trace := RunWithHooks("Create", Arr(data), action, runHook);
    }

    /** `update(data)`: the update runs between the update hooks. */
    method Update(data: Value, action: Result<Value>, runHook: HookRunner) returns (r: Result<Value>, trace: seq<Step>)
      requires Valid()
      ensures (r, trace) == Hooked(beforeUpdateHook, afterUpdateHook, data, action, runHook, table.ColumnNames(true))
    {
      r, trace := RunWithHooks("Update", data, action, runHook);
    }

    /** `updateByPk(pkey, data)`: the key is not checked; the update runs
        between the update hooks. */
    method UpdateByPk(pkey: Value, data: Value, action: Result<Value>, runHook: HookRunner)
      returns (r: Result<Value>, trace: seq<Step>)
      requires Valid()
      ensures (r, trace) == Hooked(beforeUpdateHook, afterUpdateHook, data, action, runHook, table.ColumnNames(true))
    {
      r, trace := RunWithHooks("Update", data, action, runHook);
    }

    /** `patch(data)`: the update runs between the update hooks. */
    method Patch(data: Value, action: Result<Value>, runHook: HookRunner) returns (r: Result<Value>, trace: seq<Step>)
      requires Valid()
      ensures (r, trace) == Hooked(beforeUpdateHook, afterUpdateHook, data, action, runHook, table.ColumnNames(true))
    {
      r, trace := RunWithHooks("Update", data, action, runHook);
    }

    /** `patchByPk(pkey, data)`: a key of the wrong type is refused before
        any hook or the action runs; otherwise the update runs between the
        update hooks. */
    method PatchByPk(pkey: Value, data: Value, action: Result<Value>, runHook: HookRunner)
      returns (r: Result<Value>, trace: seq<Step>)
      requires Valid()
      ensures PkeyCheck(PkType(table.config), pkey).Fail? ==>
        r == Err(PkeyCheck(PkType(table.config), pkey).error) && trace == []
      ensures PkeyCheck(PkType(table.config), pkey).Pass? ==>
        (r, trace) == Hooked(beforeUpdateHook, afterUpdateHook, data, action, runHook, table.ColumnNames(true))
    {
      var check := PkeyCheck(PkType(table.config), pkey);
      if check.Fail? {
        return Err(check.error), [];
      }
      r, trace := RunWithHooks("Update", data, action, runHook);
    }

    /** `destroy(where)`: the delete runs between the destroy hooks. */
    method Destroy(where: Value, action: Result<Value>, runHook: HookRunner) returns (r: Result<Value>, trace: seq<Step>)
      requires Valid()
      ensures (r, trace) == Hooked(beforeDestroyHook, afterDestroyHook, where, action, runHook, table.ColumnNames(true))
    {
      r, trace := RunWithHooks("Destroy", where, action, runHook);
    }

    /** `destroyByPk(pkey)`: a key of the wrong type is refused before any
        hook or the action runs; otherwise the delete runs between the
        destroy hooks, which see the key. */
    method DestroyByPk(pkey: Value, action: Result<Value>, runHook: HookRunner) returns (r: Result<Value>, trace: seq<Step>)
      requires Valid()
      ensures PkeyCheck(PkType(table.config), pkey).Fail? ==>
        r == Err(PkeyCheck(PkType(table.config), pkey).error) && trace == []
      ensures PkeyCheck(PkType(table.config), pkey).Pass? ==>
        (r, trace) == Hooked(beforeDestroyHook, afterDestroyHook, pkey, action, runHook, table.ColumnNames(true))
    {
      var check := PkeyCheck(PkType(table.config), pkey);
      if check.Fail? {
        return Err(check.error), [];
      }
      r, trace := RunWithHooks("Destroy", pkey, action, runHook);
    }
  }
}
