/**
 * KeyedObject (src/animation/keyed_object.cpp): the keyed properties an animation
 * drives on one target object, named by id. What a keyed property itself does when
 * validated, cleaned or applied is not part of this model: those steps are function
 * parameters, and an application is recorded on the target as an event.
 */
module Animation {
  import opened Wrappers
  import opened Status
  import opened Math

  /** A keyed property: which property of the target it drives (its curve is not modelled). */
  datatype KeyedProperty = KeyedProperty(propertyKey: nat)

  /** One `KeyedProperty::apply(object, time, mix)` call received by a target object. */
  datatype Application = Application(property: KeyedProperty, time: Float, mix: Float)

  /** One `KeyedProperty::onAddedClean` call and the status it returned. */
  datatype CleanCall = CleanCall(property: KeyedProperty, result: StatusCode)

  /** An object of the artboard that animations can target; it records what is applied to it. */
  class CoreObject {
    var applied: seq<Application>

    constructor ()
      ensures applied == []
    {
      applied := [];
    }
  }

  /** The status of validating `properties` in order: the first one that is not Ok, else Ok. */
  function FirstFailure(properties: seq<KeyedProperty>, onAddedDirty: KeyedProperty -> StatusCode)
    : (r: StatusCode)
    ensures r == Ok <==> forall i :: 0 <= i < |properties| ==> onAddedDirty(properties[i]) == Ok
    ensures r != Ok ==> exists k :: 0 <= k < |properties| && onAddedDirty(properties[k]) == r &&
                                    forall j :: 0 <= j < k ==> onAddedDirty(properties[j]) == Ok
  {
    if properties == [] then Ok
    else if onAddedDirty(properties[0]) != Ok then onAddedDirty(properties[0])
    else
      var r := FirstFailure(properties[1..], onAddedDirty);
      assert forall i :: 1 <= i < |properties| ==> properties[i] == properties[1..][i - 1];
      r
  }

  /**
   * The scan stops at the first failure: properties after a failing one cannot change
   * the outcome, and after an all-Ok prefix the outcome is that of the rest.
   */
  lemma {:induction false} FirstFailureAppend(properties: seq<KeyedProperty>, rest: seq<KeyedProperty>,
                                              onAddedDirty: KeyedProperty -> StatusCode)
    ensures FirstFailure(properties + rest, onAddedDirty) ==
            if FirstFailure(properties, onAddedDirty) != Ok then FirstFailure(properties, onAddedDirty)
            else FirstFailure(rest, onAddedDirty)
  {
    if properties != [] {
      assert (properties + rest)[1..] == properties[1..] + rest;
      FirstFailureAppend(properties[1..], rest, onAddedDirty);
    } else {
      assert properties + rest == rest;
    }
  }

  /** The applications `apply` makes on its target: each property once, in order, with the same time and mix. */
  function Applications(properties: seq<KeyedProperty>, time: Float, mix: Float): seq<Application>
  {
    seq(|properties|, i requires 0 <= i < |properties| => Application(properties[i], time, mix))
  }

  /** Applying two runs of properties one after the other is applying their concatenation. */
  lemma ApplicationsAppend(p: seq<KeyedProperty>, q: seq<KeyedProperty>, time: Float, mix: Float)
    ensures Applications(p + q, time, mix) == Applications(p, time, mix) + Applications(q, time, mix)
  {
  }

  /** A stack entry of the file importer: a linear-animation importer or an importer of another type. */
  datatype ImportStackObject =
    | AnimationImporter(importer: LinearAnimationImporter)
    | OtherImporter(typeKey: nat)

  /** The linear-animation importer: collects the keyed objects of the animation being read. */
  class LinearAnimationImporter {
    var keyedObjects: seq<KeyedObject>

    constructor ()
      ensures keyedObjects == []
    {
      keyedObjects := [];
    }
  }

  /**
   * The position of the most recently pushed linear-animation importer on the stack,
   * or -1 when there is none: no entry above it is a linear-animation importer.
   */
  function LatestAnimationImporterIndex(stack: seq<ImportStackObject>): (k: int)
    ensures -1 <= k < |stack|
    ensures 0 <= k ==> stack[k].AnimationImporter?
    ensures forall j :: k < j < |stack| ==> !stack[j].AnimationImporter?
  {
    if stack == [] then -1
    else if stack[|stack| - 1].AnimationImporter? then |stack| - 1
    else
      var k := LatestAnimationImporterIndex(stack[..|stack| - 1]);
      assert forall j :: k < j < |stack| - 1 ==> stack[j] == stack[..|stack| - 1][j];
      k
  }

  /**
   * ImportStack::latest<LinearAnimationImporter>: the most recently pushed linear-animation
   * importer, if any. The ImportStack source is not part of this model; this is an assumption.
   */
  function LatestAnimationImporter(stack: seq<ImportStackObject>): (r: Option<LinearAnimationImporter>)
    ensures r.None? <==> forall i :: 0 <= i < |stack| ==> !stack[i].AnimationImporter?
    ensures r.Some? ==> r.value == stack[LatestAnimationImporterIndex(stack)].importer
  {
    var k := LatestAnimationImporterIndex(stack);
    if k < 0 then None else Some(stack[k].importer)
  }

  function ImporterFrame(stack: seq<ImportStackObject>): set<LinearAnimationImporter> {
    match LatestAnimationImporter(stack)
    case None => {}
    case Some(importer) => {importer}
  }

  class KeyedObject {
    const objectId: nat
    var properties: seq<KeyedProperty>

    constructor (objectId: nat)
      ensures this.objectId == objectId && properties == []
    {
      this.objectId := objectId;
      properties := [];
    }

    /** addKeyedProperty: the property goes at the end, the earlier ones keep their order. */
    method AddKeyedProperty(property: KeyedProperty)
      modifies this`properties
      ensures properties == old(properties) + [property]
    {
      properties := properties + [property];
    }

    /**
     * onAddedDirty: MissingObject when the target id does not resolve (no property is
     * consulted, whatever they would answer), else the first failing property status.
     */
    function OnAddedDirty(context: map<nat, CoreObject>, onAddedDirty: KeyedProperty -> StatusCode)
      : (r: StatusCode)
      reads this
      ensures objectId !in context ==> r == MissingObject
      ensures r == Ok <==> objectId in context &&
                           forall i :: 0 <= i < |properties| ==> onAddedDirty(properties[i]) == Ok
      ensures objectId in context && r != Ok ==>
                exists k :: 0 <= k < |properties| && onAddedDirty(properties[k]) == r &&
                            forall j :: 0 <= j < k ==> onAddedDirty(properties[j]) == Ok
    {
      if objectId !in context then MissingObject
      else FirstFailure(properties, onAddedDirty)
    }

    /**
     * onAddedClean: every property is cleaned, once and in order, and the status is Ok
     * whatever the properties returned.
     */
    method OnAddedClean(onAddedClean: KeyedProperty -> StatusCode)
      returns (status: StatusCode, calls: seq<CleanCall>)
      ensures status == Ok
      ensures |calls| == |properties|
      ensures forall i :: 0 <= i < |properties| ==>
                calls[i] == CleanCall(properties[i], onAddedClean(properties[i]))
    {
      calls := [];
      var k := 0;
      while k < |properties|
        invariant 0 <= k <= |properties|
        invariant |calls| == k
        invariant forall i :: 0 <= i < k ==>
                    calls[i] == CleanCall(properties[i], onAddedClean(properties[i]))
      {
        var result := onAddedClean(properties[k]);
        calls := calls + [CleanCall(properties[k], result)];
        k := k + 1;
      }
      status := Ok;
    }

    /** The target as a frame: the resolved object, or nothing when the id does not resolve. */
    function TargetFrame(artboard: map<nat, CoreObject>): set<CoreObject> {
      if objectId in artboard then {artboard[objectId]} else {}
    }

    /**
     * apply: nothing happens when the target does not resolve; otherwise the target
     * receives every property's application, in order, with the same time and mix.
     */
    method Apply(artboard: map<nat, CoreObject>, time: Float, mix: Float)
      modifies TargetFrame(artboard)
      ensures objectId in artboard ==>
                artboard[objectId].applied ==
                old(artboard[objectId].applied) + Applications(properties, time, mix)
    {
      if objectId !in artboard {
        return;
      }
      var target := artboard[objectId];
      var k := 0;
      while k < |properties|
        invariant 0 <= k <= |properties|
        invariant target.applied == old(target.applied) + Applications(properties[..k], time, mix)
      {
        assert properties[..k + 1] == properties[..k] + [properties[k]];
        ApplicationsAppend(properties[..k], [properties[k]], time, mix);
        target.applied := target.applied + [Application(properties[k], time, mix)];
        k := k + 1;
      }
      assert properties[..k] == properties;
    }

    /**
     * import: MissingObject without a linear-animation importer on the stack; otherwise
     * the importer takes this keyed object, appended to its list, and the superclass
     * status is returned.
     */
    method Import(importStack: seq<ImportStackObject>, superStatus: StatusCode) returns (status: StatusCode)
      modifies ImporterFrame(importStack)
      ensures LatestAnimationImporter(importStack).None? ==> status == MissingObject
      ensures LatestAnimationImporter(importStack).Some? ==>
                var importer := LatestAnimationImporter(importStack).value;
                importer.keyedObjects == old(importer.keyedObjects) + [this] && status == superStatus
    {
      var latest := LatestAnimationImporter(importStack);
      if latest.None? {
        return MissingObject;
      }
      var importer := latest.value;
      importer.keyedObjects := importer.keyedObjects + [this];
      return superStatus;
    }
  }
}
