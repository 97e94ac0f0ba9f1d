/**
 The page address's query component as a key-value store. `readParam` and
 `writeParam` see only `URLSearchParams.get`, `set` and `delete`, so the
 address is abstracted as a map from parameter name to value; navigation
 and history handling are outside the model.
 */
module UrlParams {

  type Params = map<string, string>

  /** `readParam`: the stored value, or `fallback` when the name is absent. */
  function ReadParam(p: Params, name: string, fallback: string): (v: string)
    ensures name in p ==> v == p[name]
    ensures name !in p ==> v == fallback
  {
    if name in p then p[name] else fallback
  }

  /** `writeParam`: the empty value deletes the name, any other value sets it. */
  function WriteParam(p: Params, name: string, value: string): (p': Params)
    ensures value == "" ==> name !in p'
    ensures value != "" ==> name in p' && p'[name] == value
    ensures p'.Keys == if value == "" then p.Keys - {name} else p.Keys + {name}
    ensures forall k :: k != name ==> (k in p' <==> k in p)
    ensures forall k :: k != name && k in p ==> p'[k] == p[k]
  {
    if value == "" then p - {name} else p[name := value]
  }

  /** Reading back a write yields the written value, or the fallback after a delete. */
  lemma ReadAfterWrite(p: Params, name: string, value: string, fallback: string)
    ensures ReadParam(WriteParam(p, name, value), name, fallback) == if value == "" then fallback else value
  {
  }

  /** A write to one name is invisible to reads of every other name. */
  lemma ReadOtherAfterWrite(p: Params, name: string, value: string, other: string, fallback: string)
    requires other != name
    ensures ReadParam(WriteParam(p, name, value), other, fallback) == ReadParam(p, other, fallback)
  {
  }

  /** The last of two writes to the same name wins. */
  lemma WriteWrite(p: Params, name: string, v1: string, v2: string)
    ensures WriteParam(WriteParam(p, name, v1), name, v2) == WriteParam(p, name, v2)
  {
  }
}
