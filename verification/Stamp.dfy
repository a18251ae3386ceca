/**
 The runtime-config stamp (`service_config_stamp` in `types.rs`): a JSON document whose
 text decides whether a container has drifted. Strings are written as in section 7 of
 RFC 8259, the way the agent's serializer writes them.
 */
module Stamp {
  import opened Common
  import opened Text
  import opened Types

  // ---- JSON strings ----

  function HexDigit(n: nat): char
    requires n < 16
  {
    if n < 10 then ('0' as int + n) as char else ('a' as int + n - 10) as char
  }

  /** One character inside a JSON string. */
  function Escape(c: char): (s: string)
    ensures s != ""
  {
    if c == '"' then "\\\""
    else if c == '\\' then "\\\\"
    else if c as int == 8 then "\\b"
    else if c as int == 9 then "\\t"
    else if c as int == 10 then "\\n"
    else if c as int == 12 then "\\f"
    else if c as int == 13 then "\\r"
    else if c as int < 0x20 then "\\u00" + [HexDigit(c as int / 16), HexDigit(c as int % 16)]
    else [c]
  }

  function EscapeAll(s: string): string {
    if s == "" then "" else Escape(s[0]) + EscapeAll(s[1..])
  }

  function Quote(s: string): string { ['"'] + (EscapeAll(s) + ['"']) }

  // ---- the document ----

  function NullableJson(s: Option<string>): string {
    if s.Some? then Quote(s.value) else "null"
  }

  function EnvJson(v: EnvVar): string { Quote(v.name) + ([':'] + Quote(v.value)) }

  function RefJson(r: SecretRef): string {
    "{\"name\":" + (Quote(r.name) + (",\"ssm\":" + (Quote(r.ssm) + ['}'])))
  }

  function VolumeJson(v: VolumeDecl): string {
    "{\"name\":" + (Quote(v.name) + (",\"path\":" + (Quote(v.path) + ['}'])))
  }

  /** The items separated by commas, then the closing bracket. */
  function ListTail(items: seq<string>, close: char): string {
    if items == [] then [close]
    else if |items| == 1 then items[0] + [close]
    else items[0] + ([','] + ListTail(items[1..], close))
  }

  function EnvItems(env: seq<EnvVar>): (r: seq<string>)
    ensures |r| == |env|
  {
    seq(|env|, i requires 0 <= i < |env| => EnvJson(env[i]))
  }

  function RefItems(refs: seq<SecretRef>): (r: seq<string>)
    ensures |r| == |refs|
  {
    seq(|refs|, i requires 0 <= i < |refs| => RefJson(refs[i]))
  }

  function VolumeItems(volumes: seq<VolumeDecl>): (r: seq<string>)
    ensures |r| == |volumes|
  {
    seq(|volumes|, i requires 0 <= i < |volumes| => VolumeJson(volumes[i]))
  }

  /** Volumes are left out altogether when there are none. */
  function VolumesJson(volumes: seq<VolumeDecl>): string {
    if volumes == [] then "}" else ",\"volumes\":[" + (ListTail(VolumeItems(volumes), ']') + "}")
  }

  function Document(env: seq<EnvVar>, restartAt: Option<string>, refs: seq<SecretRef>, volumes: seq<VolumeDecl>): string {
    "{\"env\":{" + (ListTail(EnvItems(env), '}')
    + (",\"restartAt\":" + (NullableJson(restartAt)
    + (",\"secretRefs\":[" + (ListTail(RefItems(refs), ']')
    + VolumesJson(volumes))))))
  }

  // ---- stable sorting by name ----

  /** Insert after every entry whose name is not greater: the sort is stable. */
  function InsertBy<T>(x: T, sorted: seq<T>, name: T -> string): seq<T> {
    if sorted == [] || StringLess(name(x), name(sorted[0])) then [x] + sorted
    else [sorted[0]] + InsertBy(x, sorted[1..], name)
  }

  function SortBy<T>(s: seq<T>, name: T -> string): seq<T> {
    if s == [] then [] else InsertBy(s[|s| - 1], SortBy(s[..|s| - 1], name), name)
  }

  function RefName(r: SecretRef): string { r.name }

  function VolumeName(v: VolumeDecl): string { v.name }

  function SortRefs(refs: seq<SecretRef>): seq<SecretRef> { SortBy(refs, RefName) }

  function SortVolumes(volumes: seq<VolumeDecl>): seq<VolumeDecl> { SortBy(volumes, VolumeName) }

  function ServiceConfigStamp(c: ServiceConfig): string {
    Document(c.env, c.restartAt, SortRefs(c.secretRefs), SortVolumes(c.volumes))
  }
}
