/**
 JSON values, how they are printed, and how their parts are built.
 */
module JsonValues {
  import opened Wrappers
  import opened Decimals
  import opened JsonEscape

  // A real number is kept as the text it was read from.
  datatype Value =
    | Null
    | Boolean(b: bool)
    | Number(n: int)
    | Real(text: string)
    | Str(s: string)
    | Array(items: seq<Value>)
    | Object(members: seq<Member>)

  datatype Member = Member(key: string, value: Value)

  // A text as a C string: what comes before its first NUL.
  function CString(s: string): (r: string)
    ensures '\0' !in r
    ensures '\0' !in s ==> r == s
  {
    if s == "" || s[0] == '\0' then "" else [s[0]] + CString(s[1..])
  }

  // strtoll() of a text which begins with no space.
  function Strtoll(s: string): int {
    Held(Signed(s))
  }

  // Printing.  How doubles are printed is given from outside.  The parts of an
  // array or object which cannot be printed replace all that was printed before.

  function Encode(v: Value, printReal: string -> string): Option<string>
    decreases v
  {
    match v
    case Null => Some("null")
    case Boolean(b) => Some(if b then "true" else "false")
    case Number(n) => Some(NumberText(n))
    case Real(text) => Some(printReal(text))
    case Str(s) => (match Quoted(s) case Escaped(t) => Some(t) case _ => None)
    case Array(items) => (match EncodeItems(items, true, printReal) case Some(t) => Some("[" + t + "]") case None => Some("]"))
    case Object(members) =>
      (match EncodeMembers(members, true, printReal) case Some(t) => Some("{" + t + "}") case None => Some("}"))
  }

  function EncodeItems(items: seq<Value>, first: bool, printReal: string -> string): Option<string>
    decreases items
  {
    if items == [] then Some("")
    else
      match (Encode(items[0], printReal), EncodeItems(items[1..], false, printReal))
      case (Some(t), Some(rest)) => Some((if first then "" else ",") + t + rest)
      case _ => None
  }

  function EncodeMembers(members: seq<Member>, first: bool, printReal: string -> string): Option<string>
    decreases members
  {
    if members == [] then Some("")
    else
      match (Quoted(CString(members[0].key)), Encode(members[0].value, printReal), EncodeMembers(members[1..], false, printReal))
      case (Escaped(k), Some(t), Some(rest)) => Some((if first then "" else ",") + k + ":" + t + rest)
      case _ => None
  }

  function After(prefix: string, o: Option<string>): Option<string> {
    match o
    case Some(t) => Some(prefix + t)
    case None => None
  }

  lemma AfterTwice(s: string, t: string, o: Option<string>)
    ensures After(s, After(t, o)) == After(s + t, o)
  {
    if o.Some? {
      assert s + (t + o.value) == s + t + o.value;
    }
  }

  method PrintValue(v: Value, printReal: string -> string) returns (ret: Option<string>)
    ensures ret == Encode(v, printReal)
    decreases v, 1
  {
    match v
    case Null => ret := Some("null");
    case Boolean(b) => ret := Some(if b then "true" else "false");
    case Number(n) => ret := Some(NumberText(n));
    case Real(text) => ret := Some(printReal(text));
    case Str(s) => ret := match Quoted(s) case Escaped(t) => Some(t) case _ => None;
    case Array(items) =>
      ret := PrintItems(items, printReal);
      // Appending to NULL makes a new text.
      ret := Some(if ret.Some? then ret.value + "]" else "]");
    case Object(members) =>
      ret := PrintMembers(members, printReal);
      ret := Some(if ret.Some? then ret.value + "}" else "}");
  }

  method PrintItems(items: seq<Value>, printReal: string -> string) returns (ret: Option<string>)
    ensures ret == After("[", EncodeItems(items, true, printReal))
    decreases items, 0
  {
    var text := "[";
    for i := 0 to |items|
      invariant After(text, EncodeItems(items[i..], i == 0, printReal)) == After("[", EncodeItems(items, true, printReal))
    {
      var val := PrintValue(items[i], printReal);
      assert items[i..][1..] == items[i + 1..];
      if val == None {
        return None;
      }
      var piece := (if i > 0 then "," else "") + val.value;
      AfterTwice(text, piece, EncodeItems(items[i + 1..], false, printReal));
      text := text + piece;
    }
    assert text + "" == text;
    ret := Some(text);
  }

  method PrintMembers(members: seq<Member>, printReal: string -> string) returns (ret: Option<string>)
    ensures ret == After("{", EncodeMembers(members, true, printReal))
    decreases members, 0
  {
    var text := "{";
    for i := 0 to |members|
      invariant After(text, EncodeMembers(members[i..], i == 0, printReal)) == After("{", EncodeMembers(members, true, printReal))
    {
      var key := match Quoted(CString(members[i].key)) case Escaped(t) => Some(t) case _ => None;
      var val := PrintValue(members[i].value, printReal);
      assert members[i..][1..] == members[i + 1..];
      if key == None || val == None {
        return None;
      }
      var piece := (if i > 0 then "," else "") + key.value + ":" + val.value;
      AfterTwice(text, piece, EncodeMembers(members[i + 1..], false, printReal));
      text := text + piece;
    }
    assert text + "" == text;
    ret := Some(text);
  }

  // Objects: a key which is there already keeps its place and gets the new value.

  function IndexOf(members: seq<Member>, key: string): (i: int)
    ensures -1 <= i < |members|
    ensures i >= 0 ==> members[i].key == key
    ensures (exists k :: 0 <= k < |members| && members[k].key == key) <==> i >= 0
  {
    if members == [] then -1
    else if members[|members| - 1].key == key then |members| - 1
    else IndexOf(members[..|members| - 1], key)
  }

  function SetMember(members: seq<Member>, key: string, value: Value): seq<Member> {
    var i := IndexOf(members, key);
    if i >= 0 then members[i := Member(members[i].key, value)] else members + [Member(key, value)]
  }

  // cm_json_get() and cm_json_set() search from the last member to the first.
  method FindMember(members: seq<Member>, key: string) returns (n: int)
    ensures n == IndexOf(members, key)
  {
    n := |members| - 1;
    assert members[..|members|] == members;
    while n >= 0
      invariant -1 <= n < |members|
      invariant IndexOf(members, key) == IndexOf(members[..n + 1], key)
    {
      if members[n].key == key {
        return;
      }
      assert members[..n + 1][..n] == members[..n];
      n := n - 1;
    }
  }

  // What was set is found, and nothing else changed.
  lemma SetThenGet(members: seq<Member>, key: string, value: Value, other: string)
    ensures var r := SetMember(members, key, value);
            && IndexOf(r, key) >= 0 && r[IndexOf(r, key)].value == value
            && (other != key ==> IndexOf(r, other) == IndexOf(members, other)
                                 && (IndexOf(members, other) >= 0 ==> r[IndexOf(r, other)] == members[IndexOf(members, other)]))
  {
    var r := SetMember(members, key, value);
    var i := IndexOf(members, key);
    if i >= 0 {
      SameKeys(members, r, key);
      SameKeys(members, r, other);
    } else {
      assert r[..|members|] == members;
    }
  }

  lemma {:induction false} SameKeys(a: seq<Member>, b: seq<Member>, key: string)
    requires |a| == |b| && forall k :: 0 <= k < |a| ==> a[k].key == b[k].key
    ensures IndexOf(a, key) == IndexOf(b, key)
    decreases |a|
  {
    if a != [] {
      SameKeys(a[..|a| - 1], b[..|b| - 1], key);
    }
  }
}
