/**
 * `Array.prototype.join('||')` on the attribute list, and a splitter that
 * undoes it when no attribute contains the character `|`.
 */
module Joining {

  const Delimiter: string := "||"

  /** `parts.join('||')`: the parts in order with the delimiter between neighbours. */
  function Join(parts: seq<string>): string {
    if |parts| == 0 then ""
    else if |parts| == 1 then parts[0]
    else parts[0] + Delimiter + Join(parts[1..])
  }

  /** `s.split('||')`: cuts at every delimiter, scanning from the left. */
  function Split(s: string): (r: seq<string>)
    ensures |r| >= 1
    decreases |s|
  {
    if |s| < 2 then [s]
    else if s[0] == '|' && s[1] == '|' then [""] + Split(s[2..])
    else
      var rest := Split(s[1..]);
      [[s[0]] + rest[0]] + rest[1..]
  }

  predicate NoBar(s: string) { '|' !in s }

  /** Joining appends: the last part follows the join of the others and one delimiter. */
  lemma {:induction false} JoinSnoc(parts: seq<string>, last: string)
    requires |parts| >= 1
    ensures Join(parts + [last]) == Join(parts) + Delimiter + last
  {
    if |parts| == 1 {
      assert parts + [last] == [parts[0], last];
    } else {
      assert (parts + [last])[1..] == parts[1..] + [last];
      JoinSnoc(parts[1..], last);
    }
  }

  lemma {:induction false} SplitSingle(x: string)
    requires NoBar(x)
    ensures Split(x) == [x]
    decreases |x|
  {
    if |x| >= 2 {
      assert x[0] in x;
      assert forall ch :: ch in x[1..] ==> ch in x;
      SplitSingle(x[1..]);
      assert [x[0]] + x[1..] == x;
    }
  }

  lemma {:induction false} SplitFirst(x: string, rest: string)
    requires NoBar(x)
    ensures Split(x + Delimiter + rest) == [x] + Split(rest)
    decreases |x|
  {
    var s := x + Delimiter + rest;
    if |x| == 0 {
      assert s == "||" + rest && s[2..] == rest;
    } else {
      assert x[0] in x;
      assert forall ch :: ch in x[1..] ==> ch in x;
      assert s[0] == x[0] && s[1..] == x[1..] + Delimiter + rest;
      SplitFirst(x[1..], rest);
      assert [x[0]] + x[1..] == x;
    }
  }

  /**
   * Splitting the joined string gives back the list, as long as the list is
   * not empty and no part contains `|`.
   */
  lemma {:induction false} SplitJoin(parts: seq<string>)
    requires |parts| >= 1
    requires forall i :: 0 <= i < |parts| ==> NoBar(parts[i])
    ensures Split(Join(parts)) == parts
  {
    if |parts| == 1 {
      SplitSingle(parts[0]);
    } else {
      SplitFirst(parts[0], Join(parts[1..]));
      SplitJoin(parts[1..]);
    }
  }

  /**
   * The delimiter is not escaped: two different lists whose parts contain it
   * can join to the same string, and so hash to the same digest.
   */
  lemma JoinCollides()
    ensures ["a", "b"] != ["a||b"] && Join(["a", "b"]) == Join(["a||b"])
  {
    assert ["a", "b"][1..] == ["b"];
  }
}
