/** URLs as the library sees them through `URLComponents`: everything before the
    query, plus the query as an ordered list of items that may lack a value. */
module Url {
  import opened Wrappers

  /** `URLQueryItem`: `?a` has no value, `?a=` has the empty value. */
  datatype QueryItem = QueryItem(name: string, value: Option<string>)

  /** `base` stands for scheme, authority, path and fragment; `query` is `nil`
      when the URL has no `?` at all. */
  datatype Url = Url(base: string, query: Option<seq<QueryItem>>)

  /** Item `i` is the first one called `name`. */
  ghost predicate FirstNamedAt(items: seq<QueryItem>, name: string, i: int)
  {
    && 0 <= i < |items|
    && items[i].name == name
    && forall j | 0 <= j < i :: items[j].name != name
  }

  /** The names of the items, in order. */
  function Names(items: seq<QueryItem>): (names: seq<string>)
    ensures |names| == |items|
    ensures forall i | 0 <= i < |items| :: names[i] == items[i].name
  {
    seq(|items|, i requires 0 <= i < |items| => items[i].name)
  }

  /** The value of the first item called `name`, scanning front to back and
      stopping at that item even when it carries no value. */
  function FirstValue(items: seq<QueryItem>, name: string): (r: Option<string>)
    ensures r.Some? ==> exists i :: FirstNamedAt(items, name, i) && items[i].value == r
    ensures forall i | FirstNamedAt(items, name, i) :: r == items[i].value
  {
    if |items| == 0 then None
    else if items[0].name == name then
      assert FirstNamedAt(items, name, 0);
      items[0].value
    else
      var r := FirstValue(items[1..], name);
      assert forall i | FirstNamedAt(items, name, i) :: i > 0 && FirstNamedAt(items[1..], name, i - 1);
      assert forall i | FirstNamedAt(items[1..], name, i) :: FirstNamedAt(items, name, i + 1);
      r
  }

  /** Once an item called `name` is found, whatever follows it is irrelevant:
      a valueless first item hides a later item of the same name that has one. */
  lemma {:induction false} FirstValueIgnoresSuffix(prefix: seq<QueryItem>, item: QueryItem, rest: seq<QueryItem>)
    requires item.name !in Names(prefix)
    ensures FirstValue(prefix + [item] + rest, item.name) == item.value
  {
    if |prefix| == 0 {
      assert prefix + [item] + rest == [item] + rest;
    } else {
      assert (prefix + [item] + rest)[1..] == prefix[1..] + [item] + rest;
      assert item.name !in Names(prefix[1..]) by {
        forall j | 0 <= j < |prefix[1..]|
          ensures prefix[1..][j].name != item.name
        {
          assert prefix[1..][j] == prefix[j + 1];
          assert Names(prefix)[j + 1] == prefix[j + 1].name;
        }
      }
      assert Names(prefix)[0] == prefix[0].name;
      FirstValueIgnoresSuffix(prefix[1..], item, rest);
    }
  }
}
