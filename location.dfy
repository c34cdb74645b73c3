/** Recovering a record identifier from a `Location` header (section 10.2.2 of
    RFC 9110): `location.rstrip("/").split("/")[-1]`. */
module Location {

  /** True when every character of `s` is a slash (vacuously so for ""). */
  predicate AllSlashes(s: string)
  {
    forall i :: 0 <= i < |s| ==> s[i] == '/'
  }

  /** Python's `s.rstrip("/")`: the longest prefix of `s` that does not end
      in a slash, the characters removed being all slashes. */
  function StripTrailingSlashes(s: string): (r: string)
    ensures |r| <= |s| && r == s[..|r|]
    ensures r == [] || r[|r| - 1] != '/'
    ensures AllSlashes(s[|r|..])
    decreases |s|
  {
    if s != [] && s[|s| - 1] == '/' then StripTrailingSlashes(s[..|s| - 1]) else s
  }

  /** Python's `s.split("/")`: the pieces between slashes, from left to right;
      "" splits into [""] and every slash starts a new piece. */
  function Split(s: string): (parts: seq<string>)
    ensures |parts| >= 1
    ensures forall i :: 0 <= i < |parts| ==> '/' !in parts[i]
    decreases |s|
  {
    if s == [] then [[]]
    else if s[|s| - 1] == '/' then Split(s[..|s| - 1]) + [[]]
    else
      var init := Split(s[..|s| - 1]);
      init[..|init| - 1] + [init[|init| - 1] + [s[|s| - 1]]]
  }

  /** Python's `"/".join(parts)`. */
  function Join(parts: seq<string>): string
    requires |parts| >= 1
    decreases |parts|
  {
    if |parts| == 1 then parts[0]
    else Join(parts[..|parts| - 1]) + "/" + parts[|parts| - 1]
  }

  /** The identifier `create_netsuite_record` reads off a `Location` header. */
  function LocationId(location: string): (id: string)
    ensures '/' !in id
    ensures var stripped := StripTrailingSlashes(location);
      |id| <= |stripped| && stripped[|stripped| - |id|..] == id &&
      (|id| < |stripped| ==> stripped[|stripped| - |id| - 1] == '/')
    ensures id == [] <==> AllSlashes(location)
  {
    var stripped := StripTrailingSlashes(location);
    var parts := Split(stripped);
    LastSegmentIsSuffix(stripped);
    parts[|parts| - 1]
  }

  /** Joining the pieces of a split gives back the string. */
  lemma {:induction false} JoinSplit(s: string)
    ensures Join(Split(s)) == s
    decreases |s|
  {
    if s == [] {
    } else {
      var t := s[..|s| - 1];
      assert s == t + [s[|s| - 1]];
      JoinSplit(t);
      var init := Split(t);
      if s[|s| - 1] == '/' {
        assert (init + [[]])[..|init|] == init;
      } else {
        var parts := init[..|init| - 1] + [init[|init| - 1] + [s[|s| - 1]]];
        if |init| > 1 {
          assert parts[..|parts| - 1] == init[..|init| - 1];
        }
      }
    }
  }

  /** Splitting a string with no slash gives that string alone. */
  lemma {:induction false} SplitNoSlash(x: string)
    requires '/' !in x
    ensures Split(x) == [x]
    decreases |x|
  {
    if x != [] {
      var t := x[..|x| - 1];
      assert x == t + [x[|x| - 1]];
      assert forall c :: c in t ==> c in x;
      SplitNoSlash(t);
    }
  }

  /** Appending a slash and a slash-free piece appends one piece to the split. */
  lemma {:induction false} SplitAppend(a: string, x: string)
    requires '/' !in x
    ensures Split(a + "/" + x) == Split(a) + [x]
    decreases |x|
  {
    if x == [] {
      assert (a + "/" + x)[..|a + "/" + x| - 1] == a;
    } else {
      var t := x[..|x| - 1];
      assert x == t + [x[|x| - 1]];
      assert forall c :: c in t ==> c in x;
      SplitAppend(a, t);
      assert (a + "/" + x)[..|a + "/" + x| - 1] == a + "/" + t;
    }
  }

  /** Splitting the join of slash-free pieces gives back the pieces. */
  lemma {:induction false} SplitJoin(parts: seq<string>)
    requires |parts| >= 1
    requires forall i :: 0 <= i < |parts| ==> '/' !in parts[i]
    ensures Split(Join(parts)) == parts
    decreases |parts|
  {
    if |parts| == 1 {
      SplitNoSlash(parts[0]);
    } else {
      var init := parts[..|parts| - 1];
      SplitJoin(init);
      SplitAppend(Join(init), parts[|parts| - 1]);
      assert init + [parts[|parts| - 1]] == parts;
    }
  }

  /** The last piece of a split ends the string, and is either the whole
      string or preceded by a slash. */
  lemma LastSegmentIsSuffix(s: string)
    ensures var parts := Split(s); var id := parts[|parts| - 1];
      |id| <= |s| && s[|s| - |id|..] == id &&
      (|id| < |s| ==> s[|s| - |id| - 1] == '/')
  {
    var parts := Split(s);
    JoinSplit(s);
    if |parts| > 1 {
      var init := Join(parts[..|parts| - 1]);
      assert s == init + "/" + parts[|parts| - 1];
    }
  }

  /** Removing trailing slashes is determined by its result: a prefix that
      is empty or ends in a non-slash, followed only by slashes. */
  lemma StripUnique(u: string, w: string)
    requires u == [] || u[|u| - 1] != '/'
    requires AllSlashes(w)
    ensures StripTrailingSlashes(u + w) == u
  {
    var s := u + w;
    var r := StripTrailingSlashes(s);
    assert forall j :: |u| <= j < |s| ==> s[j] == '/' by {
      forall j | |u| <= j < |s| ensures s[j] == '/' { assert s[j] == w[j - |u|]; }
    }
    assert forall j :: |r| <= j < |s| ==> s[j] == '/' by {
      forall j | |r| <= j < |s| ensures s[j] == '/' { assert s[j] == s[|r|..][j - |r|]; }
    }
    assert r != [] ==> s[|r| - 1] != '/';
    assert u != [] ==> s[|u| - 1] != '/';
    assert |r| == |u|;
    assert r == s[..|u|] == u;
  }

  /** The round trip the create call relies on: a header that names the new
      record by `<base>/<id>`, perhaps with trailing slashes, yields `<id>`. */
  lemma LocationIdOfRecordUrl(base: string, id: string, slashes: string)
    requires id != [] && '/' !in id
    requires AllSlashes(slashes)
    ensures LocationId(base + "/" + id + slashes) == id
  {
    var u := base + "/" + id;
    assert u[|u| - 1] == id[|id| - 1];
    assert id[|id| - 1] in id;
    StripUnique(u, slashes);
    SplitAppend(base, id);
  }

  /** The header `.../record/v1/customer/4821`, with and without a trailing
      slash, yields `4821`. */
  lemma LocationIdExamples()
    ensures LocationId("https://1234567.suitetalk.api.netsuite.com/services/rest/record/v1/customer/4821") == "4821"
    ensures LocationId("https://1234567.suitetalk.api.netsuite.com/services/rest/record/v1/customer/4821/") == "4821"
  {
    var base := "https://1234567.suitetalk.api.netsuite.com/services/rest/record/v1/customer";
    LocationIdOfRecordUrl(base, "4821", "");
    LocationIdOfRecordUrl(base, "4821", "/");
    assert base + "/" + "4821" + "" == "https://1234567.suitetalk.api.netsuite.com/services/rest/record/v1/customer/4821";
    assert base + "/" + "4821" + "/" == "https://1234567.suitetalk.api.netsuite.com/services/rest/record/v1/customer/4821/";
  }
}
