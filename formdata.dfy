/**
 * The submitted form as the spawner receives it: a dict from field name to
 * the list of strings the browser sent for that field. Both versions of
 * options_from_form consume values by popping them off these lists, so the
 * lists are state that a class holds and its methods change.
 */
module FormData {
  import opened Python

  /** Field name -> submitted strings, in the order the form delivered them. */
  type Lists = seq<(string, seq<string>)>

  function Names(ls: Lists): (ns: seq<string>)
    ensures |ns| == |ls| && forall i :: 0 <= i < |ls| ==> ns[i] == ls[i].0
  {
    if ls == [] then [] else [ls[0].0] + Names(ls[1..])
  }

  /** `formdata.get(name)` */
  function ListOf(ls: Lists, name: string): (r: Option<seq<string>>)
    ensures r.Some? <==> name in Names(ls)
  {
    if ls == [] then None
    else if ls[0].0 == name then Some(ls[0].1)
    else ListOf(ls[1..], name)
  }

  /** The list that `formdata.get(name)` finds, changed to l; all else stays as it was. */
  function Replace(ls: Lists, name: string, l: seq<string>): Lists
  {
    if ls == [] then []
    else if ls[0].0 == name then [(name, l)] + ls[1..]
    else [ls[0]] + Replace(ls[1..], name, l)
  }

  lemma {:induction false} ReplaceEffect(ls: Lists, name: string, l: seq<string>, n: string)
    ensures Names(Replace(ls, name, l)) == Names(ls)
    ensures ListOf(Replace(ls, name, l), n) ==
      if n == name && name in Names(ls) then Some(l) else ListOf(ls, n)
  {
    if ls != [] {
      if ls[0].0 == name {
        assert ([(name, l)] + ls[1..])[1..] == ls[1..];
      } else {
        ReplaceEffect(ls[1..], name, l, n);
        assert ([ls[0]] + Replace(ls[1..], name, l))[1..] == Replace(ls[1..], name, l);
      }
    }
  }

  /** A popped value and the lists left behind (the lists change even when the pop fails later on). */
  datatype Popped = Popped(value: Result<Json>, lists: Lists)

  /** `formdata.get(name, [fallback]).pop(0)` */
  function TakeFirst(ls: Lists, name: string, fallback: Json): (p: Popped)
    ensures ListOf(ls, name).None? ==> p == Popped(Ok(fallback), ls)
    ensures ListOf(ls, name) == Some([]) ==> p == Popped(Err(IndexError), ls)
    ensures ListOf(ls, name).Some? && ListOf(ls, name).value != [] ==>
      p.value == Ok(Str(ListOf(ls, name).value[0])) && ListOf(p.lists, name) == Some(ListOf(ls, name).value[1..])
    ensures forall n :: n != name ==> ListOf(p.lists, n) == ListOf(ls, n)
    ensures Names(p.lists) == Names(ls)
  {
    match ListOf(ls, name)
    case None => Popped(Ok(fallback), ls)
    case Some(l) =>
      if l == [] then Popped(Err(IndexError), ls)
      else
        var rest := Replace(ls, name, l[1..]);
        ReplaceEffect(ls, name, l[1..], name);
        assert forall n :: n != name ==> ListOf(rest, n) == ListOf(ls, n) by {
          forall n | n != name ensures ListOf(rest, n) == ListOf(ls, n) {
            ReplaceEffect(ls, name, l[1..], n);
          }
        }
        Popped(Ok(Str(l[0])), rest)
  }

  /** `v.pop()` on the list of the i-th submitted field. */
  function TakeLast(ls: Lists, i: nat): (p: Popped)
    requires i < |ls|
    ensures ls[i].1 == [] ==> p == Popped(Err(IndexError), ls)
    ensures ls[i].1 != [] ==>
      && p.value == Ok(Str(ls[i].1[|ls[i].1| - 1]))
      && p.lists == ls[i := (ls[i].0, ls[i].1[..|ls[i].1| - 1])]
  {
    var l := ls[i].1;
    if l == [] then Popped(Err(IndexError), ls)
    else Popped(Ok(Str(l[|l| - 1])), ls[i := (ls[i].0, l[..|l| - 1])])
  }

  /** The outcome of consuming form values: the parameters or the error, and the form lists left behind. */
  datatype Applied = Applied(result: Result<Fields>, form: Lists)

  /** The form data object whose lists options_from_form pops. */
  class Form {
    var lists: Lists

    constructor (submitted: Lists)
      ensures lists == submitted
    {
      lists := submitted;
    }

    method PopFirstOr(name: string, fallback: Json) returns (r: Result<Json>)
      modifies this
      ensures r == TakeFirst(old(lists), name, fallback).value
      ensures lists == TakeFirst(old(lists), name, fallback).lists
    {
      var found := ListOf(lists, name);
      if found.None? {
        r := Ok(fallback);
      } else if found.value == [] {
        r := Err(IndexError);
      } else {
        r := Ok(Str(found.value[0]));
        lists := Replace(lists, name, found.value[1..]);
      }
    }

    method PopLast(i: nat) returns (r: Result<Json>)
      requires i < |lists|
      modifies this
      ensures r == TakeLast(old(lists), i).value
      ensures lists == TakeLast(old(lists), i).lists
    {
      var l := lists[i].1;
      if l == [] {
        r := Err(IndexError);
      } else {
        r := Ok(Str(l[|l| - 1]));
        lists := lists[i := (lists[i].0, l[..|l| - 1])];
      }
    }
  }
}
