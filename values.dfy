/** The values a parsed JSON field can hold on the Python side, their `str()`
    and `repr()` renderings, and the `clean_question` field normaliser that the
    three question records share. */
module Values {
  import opened Wrappers
  import opened Text

  /** A Python value as produced from JSON. A dict keeps its entries in
      insertion order, as Python dicts do. */
  datatype PyValue =
    | PyNone
    | PyBool(b: bool)
    | PyInt(i: int)
    | PyStr(s: string)
    | PyList(items: seq<PyValue>)
    | PyDict(entries: seq<(string, PyValue)>)

  /** A real Python dict never holds the same key twice. */
  predicate DistinctKeys(entries: seq<(string, PyValue)>)
  {
    forall i, j :: 0 <= i < j < |entries| ==> entries[i].0 != entries[j].0
  }

  /** `d.get(key)`: the value stored under `key`, if any. */
  function Get(entries: seq<(string, PyValue)>, key: string): (r: Option<PyValue>)
    ensures r.None? <==> forall i :: 0 <= i < |entries| ==> entries[i].0 != key
  {
    if entries == [] then None
    else if entries[0].0 == key then Some(entries[0].1)
    else Get(entries[1..], key)
  }

  /** In a dict with distinct keys, `get` finds the entry stored under the key. */
  lemma {:induction false} GetFindsEntry(entries: seq<(string, PyValue)>, k: nat)
    requires DistinctKeys(entries) && k < |entries|
    ensures Get(entries, entries[k].0) == Some(entries[k].1)
  {
    if k > 0 {
      assert entries[0].0 != entries[k].0;
      assert DistinctKeys(entries[1..]) by {
        forall i, j | 0 <= i < j < |entries[1..]|
          ensures entries[1..][i].0 != entries[1..][j].0
        {
          assert entries[1..][i] == entries[i + 1] && entries[1..][j] == entries[j + 1];
        }
      }
      GetFindsEntry(entries[1..], k - 1);
    }
  }

  /** `repr(v)`. Strings are quoted with single quotes; escaping and Python's
      choice of double quotes are not modelled. */
  function Repr(v: PyValue): (r: string)
    decreases v, 1
    ensures r != []
  {
    match v
    case PyNone => "None"
    case PyBool(b) => if b then "True" else "False"
    case PyInt(i) => IntToString(i)
    case PyStr(s) => "'" + s + "'"
    case PyList(items) => "[" + ReprItems(v, 0) + "]"
    case PyDict(entries) => "{" + ReprEntries(v, 0) + "}"
  }

  /** The items of list `v` from index `k` on, each `repr`-ed, joined by ", ". */
  function ReprItems(v: PyValue, k: nat): string
    requires v.PyList?
    decreases v, 0, |v.items| - k
  {
    if k >= |v.items| then ""
    else if k == |v.items| - 1 then Repr(v.items[k])
    else Repr(v.items[k]) + ", " + ReprItems(v, k + 1)
  }

  /** The entries of dict `v` from index `k` on, as "'key': repr(value)", joined by ", ". */
  function ReprEntries(v: PyValue, k: nat): string
    requires v.PyDict?
    decreases v, 0, |v.entries| - k
  {
    if k >= |v.entries| then ""
    else
      var entry := "'" + v.entries[k].0 + "': " + Repr(v.entries[k].1);
      if k == |v.entries| - 1 then entry else entry + ", " + ReprEntries(v, k + 1)
  }

  /** `str(v)`: a string is its own text; every other value renders as its `repr`. */
  function Str(v: PyValue): (r: string)
    ensures v.PyStr? ==> r == v.s
    ensures v.PyDict? ==> |r| >= 2 && r[0] == '{' && r[|r| - 1] == '}'
  {
    match v
    case PyStr(s) => s
    case _ => Repr(v)
  }

  /** The `clean_question` field validator: a dict yields its 'description'
      entry, or its own `str()` when it has none; any other value yields its
      `str()`. */
  function CleanQuestion(v: PyValue): (r: PyValue)
    ensures !v.PyDict? ==> r.PyStr?
  {
    match v
    case PyDict(entries) => Get(entries, "description").GetOr(PyStr(Str(v)))
    case _ => PyStr(Str(v))
  }

  /** A value that is not a dict becomes its string form; a string is kept as it is. */
  lemma CleanQuestionNonDict(v: PyValue)
    requires !v.PyDict?
    ensures CleanQuestion(v) == PyStr(Str(v))
    ensures v.PyStr? ==> CleanQuestion(v) == v
  {
  }

  /** A dict whose k-th entry is 'description' yields that entry's value, whatever its type. */
  lemma CleanQuestionDescription(entries: seq<(string, PyValue)>, k: nat)
    requires DistinctKeys(entries) && k < |entries| && entries[k].0 == "description"
    ensures CleanQuestion(PyDict(entries)) == entries[k].1
  {
    GetFindsEntry(entries, k);
  }

  /** A dict without a 'description' key becomes its own rendering, "{...}". */
  lemma CleanQuestionNoDescription(entries: seq<(string, PyValue)>)
    requires forall i :: 0 <= i < |entries| ==> entries[i].0 != "description"
    ensures CleanQuestion(PyDict(entries)) == PyStr(Str(PyDict(entries)))
    ensures var t := CleanQuestion(PyDict(entries)).s; |t| >= 2 && t[0] == '{' && t[|t| - 1] == '}'
  {
  }

  /** Cleaning a question that is already a string changes nothing, so the
      validator is idempotent whenever its result is a string. */
  lemma CleanQuestionIdempotent(v: PyValue)
    requires CleanQuestion(v).PyStr?
    ensures CleanQuestion(CleanQuestion(v)) == CleanQuestion(v)
  {
  }
}
