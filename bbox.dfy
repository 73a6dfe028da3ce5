/**
 * `toBingBBox`: a box string in west,south,east,north order is split at
 * its commas and reordered to Bing's [south, west, north, east]. The fields
 * stay strings.
 */
module BBox {
  import opened Wrappers

  /** The fields of `fields` written out with a comma between neighbours. */
  function Join(fields: seq<string>): (s: string)
    requires |fields| >= 1
  {
    if |fields| == 1 then fields[0] else fields[0] + "," + Join(fields[1..])
  }

  /** No field contains the separator. */
  predicate CommaFree(fields: seq<string>)
  {
    forall i :: 0 <= i < |fields| ==> ',' !in fields[i]
  }

  /**
   * JavaScript's `s.split(',')`: the maximal comma-free pieces of `s`, in
   * order. The empty string gives one empty field, and a string with n
   * commas gives n + 1 fields.
   */
  function Split(s: string): (fields: seq<string>)
    ensures |fields| >= 1
    ensures Join(fields) == s
    ensures CommaFree(fields)
  {
    if s == [] then [""]
    else
      var rest := Split(s[1..]);
      if s[0] == ',' then
        assert s == "," + s[1..];
        [""] + rest
      else
        var fields := [[s[0]] + rest[0]] + rest[1..];
        assert fields[1..] == rest[1..];
        assert s == [s[0]] + s[1..];
        fields
  }

  /** A string without a comma is a single field. */
  lemma SplitCommaFree(w: string)
    requires ',' !in w
    ensures Split(w) == [w]
  {
    if w != [] {
      SplitCommaFree(w[1..]);
    }
  }

  /** A comma-free field followed by a comma splits off as the first field. */
  lemma {:induction false} SplitFirstField(w: string, t: string)
    requires ',' !in w
    ensures Split(w + "," + t) == [w] + Split(t)
  {
    if w == [] {
      assert w + "," + t == "," + t;
      assert ("," + t)[1..] == t;
    } else {
      assert (w + "," + t)[1..] == w[1..] + "," + t;
      SplitFirstField(w[1..], t);
      assert [w[0]] + w[1..] == w;
    }
  }

  /** Splitting comma-free fields joined with commas gives the fields back. */
  lemma {:induction false} SplitJoin(fields: seq<string>)
    requires |fields| >= 1 && CommaFree(fields)
    ensures Split(Join(fields)) == fields
  {
    assert ',' !in fields[0];
    if |fields| == 1 {
      SplitCommaFree(fields[0]);
    } else {
      assert CommaFree(fields[1..]) by {
        forall i | 0 <= i < |fields[1..]| ensures ',' !in fields[1..][i] {
          assert fields[1..][i] == fields[i + 1];
        }
      }
      SplitJoin(fields[1..]);
      SplitFirstField(fields[0], Join(fields[1..]));
      assert [fields[0]] + fields[1..] == fields;
    }
  }

  /** JavaScript's `fields[i]`: None (`undefined`) past the end. */
  function FieldAt(fields: seq<string>, i: nat): (f: Option<string>)
    ensures f.Some? <==> i < |fields|
    ensures f.Some? ==> f.value == fields[i]
  {
    if i < |fields| then Some(fields[i]) else None
  }

  /** The reordering of `toBingBBox`: the first two and the last two of four entries swap places. */
  function BingOrder<T>(b: seq<T>): (r: seq<T>)
    requires |b| == 4
    ensures |r| == 4
  {
    [b[1], b[0], b[3], b[2]]
  }

  /** `toBingBBox(bboxString)`: split at commas, then take fields 1, 0, 3, 2. */
  function ToBingBBox(bboxString: string): (bbox: seq<Option<string>>)
    ensures |bbox| == 4
    ensures forall i :: 0 <= i < 4 ==> BingOrder(bbox)[i] == FieldAt(Split(bboxString), i)
  {
    var fields := Split(bboxString);
    [FieldAt(fields, 1), FieldAt(fields, 0), FieldAt(fields, 3), FieldAt(fields, 2)]
  }

  /** Doing the reordering twice gives the original order back. */
  lemma BingOrderInvolution<T>(b: seq<T>)
    requires |b| == 4
    ensures BingOrder(BingOrder(b)) == b
  {
  }

  /** A box "w,s,e,n" of comma-free fields becomes [s, w, n, e]. */
  lemma ToBingBBoxOfFields(west: string, south: string, east: string, north: string)
    requires ',' !in west && ',' !in south && ',' !in east && ',' !in north
    ensures ToBingBBox(west + "," + south + "," + east + "," + north)
         == [Some(south), Some(west), Some(north), Some(east)]
  {
    var fields := [west, south, east, north];
    assert Join(fields) == west + "," + south + "," + east + "," + north by {
      assert Join(fields[3..]) == north;
      assert Join(fields[2..]) == east + "," + north;
      assert Join(fields[1..]) == south + "," + east + "," + north;
    }
    SplitJoin(fields);
  }

  /** With fewer than four fields the missing entries are `undefined`; extra fields are ignored. */
  lemma ToBingBBoxFieldCount(bboxString: string, i: nat)
    requires i < 4
    ensures ToBingBBox(bboxString)[i].None? <==> |Split(bboxString)| <= BingOrder([0, 1, 2, 3])[i]
  {
  }

  /** The worked example: "10,20,30,40" gives ["20", "10", "40", "30"]. */
  lemma ToBingBBoxExample()
    ensures ToBingBBox("10,20,30,40") == [Some("20"), Some("10"), Some("40"), Some("30")]
  {
    ToBingBBoxOfFields("10", "20", "30", "40");
    assert "10" + "," + "20" + "," + "30" + "," + "40" == "10,20,30,40";
  }
}
