/**
 * The document store the app talks to, reduced to maps: a collection maps
 * document ids to field records, and a sub-collection (a chat's messages,
 * a post's comments) is a collection kept per parent id. Field values are
 * loosely typed, as Firestore's `[String: Any]`; the `as?` casts the app
 * applies are the partial getters below.
 */
module Firestore {
  import opened Wrappers

  /** A field value. `Timestamp` is a Firestore timestamp, kept as an opaque integer. */
  datatype Value =
    | Str(s: string)
    | Timestamp(time: int)
    | Arr(items: seq<Value>)
    | Num(n: int)
    | Flag(b: bool)
    | Null

  type Fields = map<string, Value>

  /** One document of a query or snapshot result: its id and its fields. */
  datatype Document = Document(id: string, data: Fields)

  type Collection = map<string, Fields>

  datatype Db = Db(
    users: Collection,
    chats: Collection,
    messages: map<string, Collection>,   // chat id -> that chat's `messages`
    posts: Collection,
    comments: map<string, Collection>)   // post id -> that post's `comments`

  /** `fields[key] as? String` */
  function GetString(fields: Fields, key: string): (r: Option<string>)
    ensures r.Some? <==> key in fields && fields[key].Str?
    ensures r.Some? ==> fields[key] == Str(r.value)
  {
    if key in fields && fields[key].Str? then Some(fields[key].s) else None
  }

  /** `(fields[key] as? Timestamp)?.dateValue()` */
  function GetTimestamp(fields: Fields, key: string): (r: Option<int>)
    ensures r.Some? <==> key in fields && fields[key].Timestamp?
    ensures r.Some? ==> fields[key] == Timestamp(r.value)
  {
    if key in fields && fields[key].Timestamp? then Some(fields[key].time) else None
  }

  /** `items as? [String]`: succeeds exactly when every element is a string. */
  function Strings(items: seq<Value>): (r: Option<seq<string>>)
    ensures r.Some? <==> forall i :: 0 <= i < |items| ==> items[i].Str?
    ensures r.Some? ==> |r.value| == |items| && forall i :: 0 <= i < |items| ==> items[i] == Str(r.value[i])
  {
    if items == [] then Some([])
    else if !items[0].Str? then None
    else match Strings(items[1..])
      case None => None
      case Some(rest) => Some([items[0].s] + rest)
  }

  /** A string field read with `as? String` and a default: `fields[key] as? String ?? default`. */
  function StringOr(data: Fields, key: string, default: string): (r: string)
    ensures key in data && data[key].Str? ==> r == data[key].s
    ensures !(key in data && data[key].Str?) ==> r == default
  {
    GetString(data, key).GetOr(default)
  }

  /** `fields[key] as? [String]` */
  function GetStringList(fields: Fields, key: string): (r: Option<seq<string>>)
    ensures r.Some? ==> key in fields && fields[key].Arr?
  {
    if key in fields && fields[key].Arr? then Strings(fields[key].items) else None
  }

  /** A Swift `[String]` literal stored as a field value. */
  function StringArray(ss: seq<string>): (v: Value)
    ensures v.Arr? && |v.items| == |ss|
  {
    Arr(seq(|ss|, i requires 0 <= i < |ss| => Str(ss[i])))
  }

  /** A stored string array reads back as the same list. */
  lemma StringArrayRoundTrip(ss: seq<string>)
    ensures Strings(StringArray(ss).items) == Some(ss)
  {
    var r := Strings(StringArray(ss).items);
    assert r.Some?;
    assert r.value == ss;
  }

  /** The documents of a sub-collection; an absent sub-collection is empty. */
  function Children(sub: map<string, Collection>, parent: string): Collection {
    if parent in sub then sub[parent] else map[]
  }

  /** Replaces one document of a sub-collection, creating the sub-collection if needed. */
  function PutChild(sub: map<string, Collection>, parent: string, id: string, data: Fields): (r: map<string, Collection>)
    ensures r.Keys == sub.Keys + {parent}
    ensures Children(r, parent) == Children(sub, parent)[id := data]
    ensures forall q :: q in sub && q != parent ==> r[q] == sub[q]
  {
    sub[parent := Children(sub, parent)[id := data]]
  }

  /** Removes one document of a sub-collection. */
  function RemoveChild(sub: map<string, Collection>, parent: string, id: string): (r: map<string, Collection>)
    ensures r.Keys == sub.Keys
    ensures Children(r, parent) == Children(sub, parent) - {id}
    ensures forall q :: q in sub && q != parent ==> r[q] == sub[q]
  {
    if parent in sub then sub[parent := sub[parent] - {id}] else sub
  }

  /**
   * `updateData(data)`: the fields of `data` are written over those of the
   * stored document; the other stored fields are kept.
   */
  function Merge(stored: Fields, data: Fields): (r: Fields)
    ensures r.Keys == stored.Keys + data.Keys
    ensures forall k :: k in data ==> r[k] == data[k]
    ensures forall k :: k in stored && k !in data ==> r[k] == stored[k]
  {
    stored + data
  }

  /** `updateData` succeeds only when the call itself succeeds and the document exists. */
  predicate UpdateSucceeds(c: Collection, id: string, callOk: bool) {
    callOk && id in c
  }

  /** The collection after `document(id).updateData(data)` with the given call outcome. */
  function UpdateData(c: Collection, id: string, data: Fields, callOk: bool): (r: Collection)
    ensures UpdateSucceeds(c, id, callOk) ==> r == c[id := Merge(c[id], data)]
    ensures !UpdateSucceeds(c, id, callOk) ==> r == c
  {
    if UpdateSucceeds(c, id, callOk) then c[id := Merge(c[id], data)] else c
  }
}
