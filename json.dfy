/**
  JSON documents as hutool's JSONUtil writes and reads them. The text itself is
  not modelled: a string value that holds JSON holds one of these documents.
*/
module Json {
  import opened Wrappers

  datatype Json =
    | JNum(n: int)
    | JStr(s: string)
    | JArr(items: seq<Json>)
    | JObj(fields: map<string, Json>)

  /** Add an int member, unless the field is null. */
  function PutInt(m: map<string, Json>, name: string, v: Option<int>): map<string, Json>
  {
    match v
    case None => m
    case Some(n) => m[name := JNum(n)]
  }

  /** Add a text member, unless the field is null. */
  function PutText(m: map<string, Json>, name: string, v: Option<string>): map<string, Json>
  {
    match v
    case None => m
    case Some(t) => m[name := JStr(t)]
  }

  /** A member read for an int field: absent is null, a number is its value, anything else fails. */
  function ReadInt(fields: map<string, Json>, name: string): Option<Option<int>>
  {
    if name !in fields then Some(None)
    else match fields[name]
      case JNum(n) => Some(Some(n))
      case _ => None
  }

  /** A member read for a text field: absent is null, a string is its value, anything else fails. */
  function ReadText(fields: map<string, Json>, name: string): Option<Option<string>>
  {
    if name !in fields then Some(None)
    else match fields[name]
      case JStr(t) => Some(Some(t))
      case _ => None
  }

  /** A member just added reads back as its field. */
  lemma ReadPut(m: map<string, Json>, name: string, i: Option<int>, t: Option<string>)
    requires name !in m
    ensures ReadInt(PutInt(m, name, i), name) == Some(i)
    ensures ReadText(PutText(m, name, t), name) == Some(t)
  {
  }

  /** Adding a member leaves the reads of every other name as they were. */
  lemma PutKeeps(m: map<string, Json>, name: string, i: Option<int>, t: Option<string>, k: string)
    requires k != name
    ensures k in PutInt(m, name, i) <==> k in m
    ensures k in PutText(m, name, t) <==> k in m
    ensures ReadInt(PutInt(m, name, i), k) == ReadInt(m, k) && ReadText(PutInt(m, name, i), k) == ReadText(m, k)
    ensures ReadInt(PutText(m, name, t), k) == ReadInt(m, k) && ReadText(PutText(m, name, t), k) == ReadText(m, k)
  {
  }
}
