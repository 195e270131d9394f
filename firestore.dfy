/** The part of Cloud Firestore the app uses, as a map from document paths
    to documents (maps from field names to values). Reads, `setDoc` (which
    replaces a document) and `setDoc(..., { merge: true })` (which writes
    only the given fields) are the operations; whether the backend accepts
    a write is decided by the callers' oracles. */
module Firestore {
  import opened Common

  datatype Value =
    | Null
    | Str(s: string)
    | Number(r: real)
    | Day(date: CalendarDate)
    | Timestamp(millis: int)

  type Document = map<string, Value>

  /** Alternating collection and document ids, e.g. ["usuarios", uid]. */
  type Path = seq<string>

  /** The user record `usuarios/{uid}`. */
  function UserDocPath(uid: string): Path {
    ["usuarios", uid]
  }

  /** `null` for an absent or null string property, the string otherwise. */
  function StrOrNull(o: Option<string>): (v: Value)
    ensures o.None? <==> v == Null
    ensures o.Some? ==> v == Str(o.value)
  {
    match o
    case None => Null
    case Some(s) => Str(s)
  }

  /** The document store after `setDoc(path, data)`: the document is
      replaced as a whole, every other document is left alone. */
  function Replaced(docs: map<Path, Document>, path: Path, data: Document): (r: map<Path, Document>)
    ensures r.Keys == docs.Keys + {path}
    ensures r[path] == data
    ensures forall p :: p in docs && p != path ==> r[p] == docs[p]
  {
    docs[path := data]
  }

  /** The document store after `setDoc(path, fields, { merge: true })`:
      the given fields are written, the document's other fields are kept
      (the document is created if absent), other documents are left alone. */
  function Merged(docs: map<Path, Document>, path: Path, fields: Document): (r: map<Path, Document>)
    ensures r.Keys == docs.Keys + {path}
    ensures path in docs ==> r[path].Keys == docs[path].Keys + fields.Keys
    ensures path !in docs ==> r[path] == fields
    ensures forall f :: f in fields ==> r[path][f] == fields[f]
    ensures path in docs ==> forall f :: f in docs[path] && f !in fields ==> r[path][f] == docs[path][f]
    ensures forall p :: p in docs && p != path ==> r[p] == docs[p]
  {
    var base: Document := if path in docs then docs[path] else map[];
    docs[path := base + fields]
  }

  /** The store after writing `data` at `path` only when no document is
      there yet. */
  function CreatedIfAbsent(docs: map<Path, Document>, path: Path, data: Document): (r: map<Path, Document>)
    ensures path in docs ==> r == docs
    ensures path !in docs ==> r == Replaced(docs, path, data)
  {
    if path in docs then docs else docs[path := data]
  }

  /** Creating if absent is idempotent: a second call changes nothing,
      whatever data it carries. */
  lemma CreateIfAbsentIdempotent(docs: map<Path, Document>, path: Path, first: Document, second: Document)
    ensures CreatedIfAbsent(CreatedIfAbsent(docs, path, first), path, second) == CreatedIfAbsent(docs, path, first)
    ensures path in CreatedIfAbsent(docs, path, first)
  {
  }

  /** A second replacement of the same document overwrites the first. */
  lemma ReplaceOverwrites(docs: map<Path, Document>, path: Path, first: Document, second: Document)
    ensures Replaced(Replaced(docs, path, first), path, second) == Replaced(docs, path, second)
    ensures |Replaced(Replaced(docs, path, first), path, second).Keys| <= |docs.Keys| + 1
  {
    var twice := Replaced(Replaced(docs, path, first), path, second);
    var once := Replaced(docs, path, second);
    assert twice.Keys == once.Keys;
    assert forall p :: p in once ==> twice[p] == once[p];
    assert twice == once;
    if path in docs {
      assert docs.Keys + {path} == docs.Keys;
    } else {
      assert |docs.Keys + {path}| == |docs.Keys| + 1;
    }
  }

  /** The database: every document by path. */
  class Store {
    var docs: map<Path, Document>

    constructor()
      ensures docs == map[]
    {
      docs := map[];
    }

    /** `getDoc(ref).exists()` */
    function Exists(path: Path): bool
      reads this
    {
      path in docs
    }

    /** `setDoc(ref, data)` */
    method SetDoc(path: Path, data: Document)
      modifies this
      ensures docs == Replaced(old(docs), path, data)
    {
      docs := docs[path := data];
    }

    /** `setDoc(ref, fields, { merge: true })` */
    method SetDocMerge(path: Path, fields: Document)
      modifies this
      ensures docs == Merged(old(docs), path, fields)
    {
      var base: Document := if path in docs then docs[path] else map[];
      docs := docs[path := base + fields];
    }
  }
}
