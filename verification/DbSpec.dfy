/** The database as its callers see it: calls, their replies, and a plain map that gives them. */
module DbSpec {
  import opened Wrappers

  type Contents = map<string, string>

  const DB_INSERT := 1
  const DB_REPLACE := 2
  const DB_STORE := 3

  /** What a plain map does on a store. */
  function StoreSpec(m: Contents, key: string, data: string, flag: int): (Contents, int) {
    if flag != DB_INSERT && flag != DB_REPLACE && flag != DB_STORE then (m, -1)
    else if key !in m && flag == DB_REPLACE then (m, -1)
    else if key in m && flag == DB_INSERT then (m, 1)
    else (m[key := data], 0)
  }

  datatype Call =
    | FetchCall(key: string)
    | StoreCall(key: string, data: string, flag: int)
    | DeleteCall(key: string)

  datatype Reply = Data(data: Option<string>) | Code(rc: int)

  /** What a plain map answers to one call, and becomes. */
  function Answer(m: Contents, c: Call): (Contents, Reply) {
    match c
    case FetchCall(key) => (m, Data(if key in m then Some(m[key]) else None))
    case StoreCall(key, data, flag) => var (m', rc) := StoreSpec(m, key, data, flag); (m', Code(rc))
    case DeleteCall(key) => (m - {key}, Code(if key in m then 0 else -1))
  }

  /** The map after the first n calls. */
  function MapAfter(m: Contents, calls: seq<Call>, n: nat): Contents
    requires n <= |calls|
  {
    if n == 0 then m else Answer(MapAfter(m, calls, n - 1), calls[n - 1]).0
  }
}
