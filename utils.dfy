/**
 * Helpers shared by every transition of the uploader: the error constructor,
 * the id generator, removal of an entity from a bucket by id, lookup of a
 * file or chunk by id, and the option-type validator.
 */
module Utils {
  import opened Entities

  // ---------------------------------------------------------------------
  // throwError
  // ---------------------------------------------------------------------

  const ErrorPrefix: string := "[uploader]:"

  /** Always throws; the message is the library prefix followed by `msg`. */
  function ThrowError<T>(msg: string): (r: Outcome<T>)
    ensures r.Throw?
    ensures |r.message| == |ErrorPrefix| + |msg|
    ensures r.message[..|ErrorPrefix|] == ErrorPrefix && r.message[|ErrorPrefix|..] == msg
  {
    Throw(ErrorPrefix + msg)
  }

  // ---------------------------------------------------------------------
  // getId: a millisecond timestamp followed by a module-wide counter
  // ---------------------------------------------------------------------

  function DigitChar(d: nat): char
    requires d < 10
  {
    "0123456789"[d]
  }

  /** The decimal spelling of a natural number, as a template literal prints it. */
  function Decimal(n: nat): (s: string)
    ensures |s| >= 1
    ensures |s| == 1 <==> n < 10
  {
    if n < 10 then [DigitChar(n)] else Decimal(n / 10) + [DigitChar(n % 10)]
  }

  lemma DigitCharInjective(a: nat, b: nat)
    requires a < 10 && b < 10 && DigitChar(a) == DigitChar(b)
    ensures a == b
  {
  }

  /** A spelling of two or more digits is the spelling of the leading part followed by the last digit. */
  lemma DecimalLast(n: nat)
    requires n >= 10
    ensures Decimal(n)[..|Decimal(n)| - 1] == Decimal(n / 10)
    ensures Decimal(n)[|Decimal(n)| - 1] == DigitChar(n % 10)
  {
  }

  lemma {:induction false} DecimalInjective(a: nat, b: nat)
    requires Decimal(a) == Decimal(b)
    ensures a == b
  {
    if a < 10 {
      DigitCharInjective(a, b);
    } else {
      DecimalLast(a);
      DecimalLast(b);
      DecimalInjective(a / 10, b / 10);
      DigitCharInjective(a % 10, b % 10);
    }
  }

  /** The id the generator produces at clock reading `now` with counter value `i`. */
  function IdAt(now: nat, i: nat): Id
  {
    Decimal(now) + Decimal(i)
  }

  /**
   * Two ids generated at timestamps of the same number of digits with
   * different counter values differ; in particular the generator never
   * repeats an id while the clock keeps its digit count.
   */
  lemma IdsDiffer(t1: nat, a: nat, t2: nat, b: nat)
    requires |Decimal(t1)| == |Decimal(t2)|
    requires a != b
    ensures IdAt(t1, a) != IdAt(t2, b)
  {
    if IdAt(t1, a) == IdAt(t2, b) {
      var s := IdAt(t1, a);
      var n := |Decimal(t1)|;
      assert s[n..] == Decimal(a);
      assert IdAt(t2, b)[n..] == Decimal(b);
      DecimalInjective(a, b);
    }
  }

  /** The module counter `i` behind `getId`. */
  class IdCounter {
    var i: nat

    constructor ()
      ensures i == 0
    {
      i := 0;
    }

    /** `now` is the clock reading; the counter moves on by exactly one. */
    method GetId(now: nat) returns (id: Id)
      modifies this
      ensures i == old(i) + 1
      ensures id == IdAt(now, old(i))
    {
      id := Decimal(now) + Decimal(i);
      i := i + 1;
    }
  }

  // ---------------------------------------------------------------------
  // removeInfoFromFilesInfoById
  // ---------------------------------------------------------------------

  predicate NoDup(s: seq<Id>)
  {
    forall i, j :: 0 <= i < j < |s| ==> s[i] != s[j]
  }

  /** The position of the first occurrence of `id`, or -1 (Array.prototype.findIndex). */
  function IndexOf(id: Id, s: seq<Id>): (k: int)
    ensures -1 <= k < |s|
    ensures k >= 0 ==> s[k] == id && id !in s[..k]
    ensures k == -1 <==> id !in s
  {
    if |s| == 0 then -1
    else if s[0] == id then 0
    else
      var k := IndexOf(id, s[1..]);
      assert s[1..][..if k < 0 then 0 else k] == s[1..if k < 0 then 1 else k + 1];
      if k == -1 then -1 else k + 1
  }

  /**
   * Removing the first element whose id is `id`: the removed id (if any) and
   * the remaining elements.
   */
  function RemoveFirst(id: Id, s: seq<Id>): (r: (Option<Id>, seq<Id>))
    ensures id !in s ==> r == (None, s)
    ensures id in s ==> r.0 == Some(id) && |r.1| == |s| - 1
    ensures forall x :: x in r.1 ==> x in s
  {
    var k := IndexOf(id, s);
    if k == -1 then (None, s) else (Some(s[k]), s[..k] + s[k + 1..])
  }

  /** Nothing but the first occurrence of `id` is removed, and nothing is added. */
  lemma RemoveFirstMembers(id: Id, s: seq<Id>, x: Id)
    requires x != id
    ensures x in RemoveFirst(id, s).1 <==> x in s
  {
    if id in s {
      var k := IndexOf(id, s);
      assert s == s[..k] + [s[k]] + s[k + 1..];
    }
  }

  /** Removal takes exactly one copy of `id` out of the multiset of elements. */
  lemma RemoveFirstMultiset(id: Id, s: seq<Id>)
    requires id in s
    ensures multiset(RemoveFirst(id, s).1) + multiset{id} == multiset(s)
  {
    var k := IndexOf(id, s);
    assert s == s[..k] + [s[k]] + s[k + 1..];
  }

  /** From a duplicate-free bucket, removal by id leaves a duplicate-free bucket without `id`. */
  lemma RemoveFirstNoDup(id: Id, s: seq<Id>)
    requires NoDup(s)
    ensures NoDup(RemoveFirst(id, s).1)
    ensures id !in RemoveFirst(id, s).1
  {
    if id in s {
      var k := IndexOf(id, s);
      var r := RemoveFirst(id, s).1;
      assert forall i :: 0 <= i < |r| ==> r[i] == (if i < k then s[i] else s[i + 1]);
      assert forall i :: 0 <= i < |r| ==> r[i] != id;
    }
  }

  /** The remaining elements keep their relative order: they are `s` with one position skipped. */
  lemma RemoveFirstOrder(id: Id, s: seq<Id>, i: int)
    requires id in s && 0 <= i < |s| - 1
    ensures RemoveFirst(id, s).1[i] == (if i < IndexOf(id, s) then s[i] else s[i + 1])
  {
  }

  /**
   * The in-place `splice` of the source, on a sequence: finds the index of
   * the first element with the id and takes it out.
   */
  method RemoveInfoById(id: Id, infos: seq<Id>) returns (removed: Option<Id>, rest: seq<Id>)
    ensures (removed, rest) == RemoveFirst(id, infos)
  {
    var index := 0;
    while index < |infos| && infos[index] != id
      invariant 0 <= index <= |infos|
      invariant id !in infos[..index]
    {
      index := index + 1;
    }
    if index == |infos| {
      assert infos[..index] == infos;
      return None, infos;
    }
    removed := Some(infos[index]);
    rest := infos[..index] + infos[index + 1..];
  }

  // ---------------------------------------------------------------------
  // getInfoInFilesInfoById
  // ---------------------------------------------------------------------

  predicate FilesIn(files: seq<Id>, fileInfos: map<Id, FileInfo>)
  {
    forall f :: f in files ==> f in fileInfos
  }

  /**
   * The lookup over a list of files: each file in turn is matched on its own
   * id and then on the ids of its chunks.
   */
  function FindInfo(id: Id, files: seq<Id>, fileInfos: map<Id, FileInfo>): (r: Option<InfoRef>)
    requires FilesIn(files, fileInfos)
    ensures r.Some? ==> r.value.id == id
    ensures r.Some? && r.value.kind == FileUnit ==> id in files
    ensures r.Some? && r.value.kind == ChunkUnit ==>
              exists f :: f in files && id in ChunksOf(fileInfos[f])
    ensures r.None? <==> id !in files && forall f :: f in files ==> id !in ChunksOf(fileInfos[f])
    decreases |files|
  {
    if |files| == 0 then None
    else if files[0] == id then Some(InfoRef(FileUnit, id))
    else if id in ChunksOf(fileInfos[files[0]]) then Some(InfoRef(ChunkUnit, id))
    else
      var r := FindInfo(id, files[1..], fileInfos);
      assert forall f :: f in files ==> f == files[0] || f in files[1..];
      r
  }

  /** A listed file whose id is no file's chunk id is found as a file. */
  lemma {:induction false} FindInfoFindsFile(id: Id, files: seq<Id>, fileInfos: map<Id, FileInfo>)
    requires FilesIn(files, fileInfos)
    requires id in files
    requires forall f :: f in files ==> id !in ChunksOf(fileInfos[f])
    ensures FindInfo(id, files, fileInfos) == Some(InfoRef(FileUnit, id))
  {
    if files[0] != id {
      FindInfoFindsFile(id, files[1..], fileInfos);
    }
  }

  /** An id that is a chunk of a listed file and not itself a listed file is found as a chunk. */
  lemma FindInfoFindsChunk(id: Id, files: seq<Id>, fileInfos: map<Id, FileInfo>, owner: Id)
    requires FilesIn(files, fileInfos)
    requires owner in files && id in ChunksOf(fileInfos[owner]) && id !in files
    ensures FindInfo(id, files, fileInfos) == Some(InfoRef(ChunkUnit, id))
  {
  }

  /**
   * The nested scan of the source, with its early exits. It only reads: the
   * list and the records are values and nothing is assigned to them.
   */
  method GetInfoById(id: Id, files: seq<Id>, fileInfos: map<Id, FileInfo>) returns (info: Option<InfoRef>)
    requires FilesIn(files, fileInfos)
    ensures info == FindInfo(id, files, fileInfos)
  {
    info := None;
    var i := 0;
    while i < |files|
      invariant 0 <= i <= |files|
      invariant info.None?
      invariant FindInfo(id, files, fileInfos) == FindInfo(id, files[i..], fileInfos)
    {
      var file := files[i];
      assert files[i..][1..] == files[i + 1..];
      if file == id {
        info := Some(InfoRef(FileUnit, file));
        break;
      } else {
        var chunks := fileInfos[file].chunks;
        if chunks.Some? {
          var j := 0;
          while j < |chunks.value|
            invariant 0 <= j <= |chunks.value|
            invariant info.None?
            invariant id !in chunks.value[..j]
          {
            if chunks.value[j] == id {
              info := Some(InfoRef(ChunkUnit, chunks.value[j]));
              break;
            }
            j := j + 1;
          }
          assert info.None? ==> chunks.value[..j] == chunks.value;
          assert info.Some? ==> info == FindInfo(id, files, fileInfos);
        }
        if info.Some? {
          break;
        }
      }
      i := i + 1;
    }
    assert info.None? ==> files[i..] == [];
  }

  // ---------------------------------------------------------------------
  // validateOptions
  // ---------------------------------------------------------------------

  /** A JavaScript value, as far as `typeof` and property lookup can tell. */
  datatype JsValue =
    | JsUndefined
    | JsNull
    | JsBoolean(b: bool)
    | JsNumber(n: int)
    | JsString(s: string)
    | JsFunction
    | JsArray(items: seq<JsValue>)
    | JsObject(props: seq<(string, JsValue)>)

  function TypeOf(v: JsValue): string
  {
    match v
    case JsUndefined => "undefined"
    case JsNull => "object"
    case JsBoolean(_) => "boolean"
    case JsNumber(_) => "number"
    case JsString(_) => "string"
    case JsFunction => "function"
    case JsArray(_) => "object"
    case JsObject(_) => "object"
  }

  const NumberKeys: seq<string> :=
    ["maxSize", "maxCount", "chunkSize", "chunkThreshold", "retryCount", "chunkRetryCount", "threads"]
  const BooleanKeys: seq<string> := ["multiple", "autoUpload", "chunked"]
  const FunctionKeys: seq<string> :=
    ["filter", "sort", "onChange", "onBefore", "onStart", "onSuccess", "onError", "onRetry",
     "onAfter", "onChunkBefore", "onChunkStart", "onChunkSuccess", "onChunkError", "onChunkRetry",
     "onChunkAfter", "onChunkComplete", "onComplete", "onProgress", "requestAdapter"]

  /** The complaint about one own property of the options object, if any. */
  function KeyError(key: string, value: JsValue): Option<string>
  {
    if key == "url" && TypeOf(value) != "string" then
      Some("options." + key + " must be a 'string'")
    else if key == "uploadChunkUrl" && TypeOf(value) !in ["string", "undefined"] then
      Some("options." + key + " must be a 'string'")
    else if key == "method" && value !in [JsString("get"), JsString("post")] then
      Some("options." + key + " must be 'get' or 'post'")
    else if key == "accept" && TypeOf(value) !in ["string", "undefined"] then
      Some("options." + key + " must be an 'array of strings', refer https://developer.mozilla.org/en-US/docs/Web/HTML/Element/input/file#attr-accept ")
    else if key in NumberKeys && TypeOf(value) !in ["number", "undefined"] then
      Some("options." + key + " must be 'number'")
    else if key in BooleanKeys && TypeOf(value) !in ["boolean", "undefined"] then
      Some("options." + key + " must be 'boolean'")
    else if key in FunctionKeys && TypeOf(value) !in ["function", "undefined"] then
      Some("options." + key + " must be 'function'")
    else None
  }

  /** The complaint about the first offending property, in enumeration order. */
  function FirstOptionError(props: seq<(string, JsValue)>): (r: Option<string>)
    ensures r.None? <==> forall i :: 0 <= i < |props| ==> KeyError(props[i].0, props[i].1).None?
    ensures r.Some? ==>
              exists i :: (0 <= i < |props| && KeyError(props[i].0, props[i].1) == r &&
                           forall j :: 0 <= j < i ==> KeyError(props[j].0, props[j].1).None?)
  {
    if |props| == 0 then None
    else if KeyError(props[0].0, props[0].1).Some? then KeyError(props[0].0, props[0].1)
    else
      var r := FirstOptionError(props[1..]);
      assert forall i :: 1 <= i < |props| ==> props[1..][i - 1] == props[i];
      if r.Some? then
        var i :| 0 <= i < |props[1..]| && KeyError(props[1..][i].0, props[1..][i].1) == r &&
                 forall j :: 0 <= j < i ==> KeyError(props[1..][j].0, props[1..][j].1).None?;
        assert KeyError(props[i + 1].0, props[i + 1].1) == r;
        r
      else r
  }

  /** The value of an own property, or undefined. */
  function PropertyOf(props: seq<(string, JsValue)>, key: string): JsValue
  {
    if |props| == 0 then JsUndefined
    else if props[0].0 == key then props[0].1
    else PropertyOf(props[1..], key)
  }

  /**
   * `validateOptions({ options })`: destructures the `options` property of its
   * argument and checks each own property of that object. Destructuring
   * undefined or null throws a TypeError.
   */
  method ValidateOptions(arg: JsValue) returns (out: Outcome<()>)
    ensures arg.JsUndefined? || arg.JsNull? ==> out.Throw?
    ensures arg.JsObject? && PropertyOf(arg.props, "options").JsObject? ==>
              var props := PropertyOf(arg.props, "options").props;
              (out.Return? <==> FirstOptionError(props).None?) &&
              (out.Throw? ==> out == ThrowError(FirstOptionError(props).value))
    ensures (!arg.JsUndefined? && !arg.JsNull? &&
             !(arg.JsObject? && PropertyOf(arg.props, "options").JsObject?)) ==> out == Return(())
  {
    if arg.JsUndefined? || arg.JsNull? {
      return Throw("TypeError: Cannot destructure property 'options' of undefined or null");
    }
    var options := if arg.JsObject? then PropertyOf(arg.props, "options") else JsUndefined;
    if !options.JsObject? {
      // for...in over a primitive or an array visits no recognised key
      return Return(());
    }
    var props := options.props;
    var k := 0;
    while k < |props|
      invariant 0 <= k <= |props|
      invariant FirstOptionError(props) == FirstOptionError(props[k..])
    {
      assert props[k..][1..] == props[k + 1..];
      var e := KeyError(props[k].0, props[k].1);
      if e.Some? {
        return ThrowError(e.value);
      }
      k := k + 1;
    }
    return Return(());
  }

  lemma MethodKeyRejected(v: JsValue)
    requires v != JsString("get") && v != JsString("post")
    ensures KeyError("method", v).Some?
  {
    assert "method" != "url" && "method" != "uploadChunkUrl";
    assert v !in [JsString("get"), JsString("post")];
  }

  /** A `method` other than 'get' or 'post' is rejected, whatever comes after it. */
  lemma MethodMustBeGetOrPost(props: seq<(string, JsValue)>, i: int)
    requires 0 <= i < |props| && props[i].0 == "method"
    requires props[i].1 != JsString("get") && props[i].1 != JsString("post")
    ensures FirstOptionError(props).Some?
  {
    var (k, v) := props[i];
    MethodKeyRejected(v);
    assert KeyError(k, v).Some?;
  }

  lemma NumberKeyRejected(k: string, v: JsValue)
    requires k in NumberKeys
    requires !v.JsNumber? && !v.JsUndefined?
    ensures KeyError(k, v).Some?
  {
    assert k != "url" && k != "uploadChunkUrl" && k != "method" && k != "accept";
  }

  /** A numeric key holding anything but a number or undefined is rejected. */
  lemma NumericKeysMustBeNumbers(props: seq<(string, JsValue)>, i: int)
    requires 0 <= i < |props| && props[i].0 in NumberKeys
    requires !props[i].1.JsNumber? && !props[i].1.JsUndefined?
    ensures FirstOptionError(props).Some?
  {
    var (k, v) := props[i];
    NumberKeyRejected(k, v);
    assert KeyError(k, v).Some?;
  }
}
