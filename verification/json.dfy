/** Parsed JSON values and the checks the stores apply to them before schema
    validation (`typeof data === 'object'`, the `version` probe). */
module Json {
  import opened Wrappers

  /** A value produced by `JSON.parse`. Numbers are IEEE doubles in the
      source and are taken here as exact `real`s: rounding, and the
      overflow of a literal such as `1e400` to Infinity, are not modelled. */
  datatype Json =
    | JNull
    | JBool(b: bool)
    | JNumber(n: real)
    | JString(s: string)
    | JArray(items: seq<Json>)
    | JObject(fields: map<string, Json>)

  /** `typeof data === 'object' && data !== null`: arrays pass too. */
  predicate IsObjectLike(j: Json) {
    j.JArray? || j.JObject?
  }

  /** `'version' in data && typeof data.version === 'number' ? data.version : 0`. */
  function VersionOf(j: Json): (v: real)
    ensures v != 0.0 ==> j.JObject? && "version" in j.fields && j.fields["version"] == JNumber(v)
  {
    if j.JObject? && "version" in j.fields && j.fields["version"].JNumber? then j.fields["version"].n else 0.0
  }

  /** A required `z.string()` field of a `z.object`. */
  function StringField(j: Json, key: string): (r: Option<string>)
    requires j.JObject?
    ensures r.Some? <==> key in j.fields && j.fields[key].JString?
    ensures r.Some? ==> j.fields[key] == JString(r.value)
  {
    if key in j.fields && j.fields[key].JString? then Some(j.fields[key].s) else None
  }

  /** A required `z.number()` field of a `z.object`. */
  function NumberField(j: Json, key: string): (r: Option<real>)
    requires j.JObject?
    ensures r.Some? <==> key in j.fields && j.fields[key].JNumber?
    ensures r.Some? ==> j.fields[key] == JNumber(r.value)
  {
    if key in j.fields && j.fields[key].JNumber? then Some(j.fields[key].n) else None
  }
}

/** File-system failures as the stores observe them. */
module FileSystem {

  /** A rejected file-system call, identified by its `code`. */
  datatype FsError = FsError(code: string)

  predicate IsNotFound(e: FsError) {
    e.code == "ENOENT"
  }
}
