/**
 `boardHistory` is a plain JavaScript object literal, so reading
 `boardHistory[k]` for a key the object does not own falls through to
 Object.prototype. For the names Object.prototype defines, that read is a
 truthy function (or, for `__proto__`, Object.prototype itself), never
 `undefined` and never an array. This module models the reads and the
 `drawing` and `join-room` handlers as written, and shows where they part from
 the own-key store that the rest of the model uses.
 */
module JsObjectStore {
  import opened Protocol
  import opened RoomStore

  /** The property names every plain object inherits from Object.prototype. */
  const InheritedNames: set<string> := {
    "constructor", "hasOwnProperty", "isPrototypeOf", "propertyIsEnumerable",
    "toString", "toLocaleString", "valueOf", "__proto__",
    "__defineGetter__", "__defineSetter__", "__lookupGetter__", "__lookupSetter__"
  }

  /** What `boardHistory[k]` evaluates to. */
  datatype JsValue = Undefined | Array(items: seq<Segment>) | Builtin(name: string)

  /** A property read: the object's own entry first, then Object.prototype. */
  function Get(s: Store, k: BoardId): (v: JsValue)
    ensures v.Array? <==> k in s
    ensures v.Array? ==> v.items == s[k]
    ensures v.Builtin? <==> k !in s && k in InheritedNames
  {
    if k in s then Array(s[k])
    else if k in InheritedNames then Builtin(k)
    else Undefined
  }

  /** JavaScript truthiness of the values a read can produce (arrays, even empty, are truthy). */
  predicate Truthy(v: JsValue)
  {
    !v.Undefined?
  }

  /** The `drawing` handler either finishes with a new store or throws from `.push`. */
  datatype DrawOutcome = Stored(store: Store) | TypeError

  /** The `drawing` handler's store update exactly as written, including the inherited read. */
  function DrawingAsWritten(s: Store, d: Segment): (r: DrawOutcome)
    ensures r.TypeError? <==> d.boardId !in s && d.boardId in InheritedNames
  {
    var k := d.boardId;
    var s1 := if !Truthy(Get(s, k)) then s[k := []] else s;
    match Get(s1, k)
    case Array(items) => Stored(s1[k := items + [d]])
    case _ => TypeError
  }

  /** The payload `join-room` emits as `load-history`, exactly as written, if it emits one. */
  function JoinHistoryAsWritten(s: Store, b: BoardId): (r: Option<JsValue>)
    ensures r.Some? <==> b in s || b in InheritedNames
    ensures r.Some? ==> r.value == Get(s, b)
  {
    var v := Get(s, b);
    if Truthy(v) then Some(v) else None
  }

  /** A first stroke on the board named "constructor" makes the handler throw. */
  lemma ConstructorBoardThrows(d: Segment)
    requires d.boardId == "constructor"
    ensures DrawingAsWritten(Empty, d) == TypeError
  {
  }

  /** Joining the untouched board "constructor" sends a history that is not a list of strokes. */
  lemma ConstructorJoinSendsBuiltin()
    ensures JoinHistoryAsWritten(Empty, "constructor") == Some(Builtin("constructor"))
  {
  }

  /**
   Wherever the board has its own entry or its name is not inherited, the
   handler as written stores exactly what the own-key store's `Append` stores.
   */
  lemma DrawingAgreesWithAppend(s: Store, d: Segment)
    requires d.boardId in s || d.boardId !in InheritedNames
    ensures DrawingAsWritten(s, d) == Stored(Append(s, d.boardId, d))
  {
  }

  /** Under the same condition, the as-written join sends what `Snapshot` yields. */
  lemma JoinAgreesWithSnapshot(s: Store, b: BoardId)
    requires b in s || b !in InheritedNames
    ensures JoinHistoryAsWritten(s, b).Some? <==> Snapshot(s, b).Some?
    ensures Snapshot(s, b).Some? ==> JoinHistoryAsWritten(s, b) == Some(Array(Snapshot(s, b).value))
  {
  }

  /**
   The own-key store is the corrected behaviour: appending to any board,
   "constructor" included, always succeeds, and an untouched board has no
   history to send.
   */
  lemma OwnKeyStoreHandlesInheritedNames(s: Store, d: Segment)
    requires d.boardId in InheritedNames
    ensures Snapshot(Append(s, d.boardId, d), d.boardId) == Some(Log(s, d.boardId) + [d])
    ensures Snapshot(Empty, d.boardId) == None
  {
  }
}
