/** utils/utils.go: the interface{}-valued Map, slice helpers, og-meta extraction,
    URL slugs and the duration humaniser. */
module Utils {
  import opened Wrappers
  import opened Strings

  /** A value stored in a Map (Go's interface{}), with the dynamic types the bot stores. */
  datatype Value = Nil | Str(s: string) | Int(i: int) | Bool(b: bool)

  /** Map.Get on the contents of a map. */
  function Lookup(m: map<string, Value>, key: string, d: Value): (r: Value)
    ensures key in m ==> r == m[key]
    ensures key !in m ==> r == d
  {
    if key in m then m[key] else d
  }

  /** utils.Map: a map whose Set and Remove change it in place. */
  class Map {
    var entries: map<string, Value>

    constructor ()
      ensures entries == map[]
    {
      entries := map[];
    }

    /** The stored value when the key is present, the default otherwise. */
    function Get(key: string, d: Value): (r: Value)
      reads this
      ensures key in entries ==> r == entries[key]
      ensures key !in entries ==> r == d
    {
      Lookup(entries, key, d)
    }

    method Set(key: string, value: Value)
      modifies this
      ensures entries == old(entries)[key := value]
    {
      entries := entries[key := value];
    }

    /** Deletes every listed key and keeps every other entry; returns the map itself. */
    method Remove(keys: seq<string>) returns (m: Map)
      modifies this
      ensures m == this
      ensures forall k :: k in entries <==> k in old(entries) && k !in keys
      ensures forall k :: k in entries ==> entries[k] == old(entries)[k]
    {
      var i := 0;
      while i < |keys|
        invariant 0 <= i <= |keys|
        invariant forall k :: k in entries <==> k in old(entries) && k !in keys[..i]
        invariant forall k :: k in entries ==> entries[k] == old(entries)[k]
      {
        assert keys[..i + 1] == keys[..i] + [keys[i]];
        entries := entries - {keys[i]};
        i := i + 1;
      }
      assert keys[..i] == keys;
      m := this;
    }

    /** A new map holding exactly the listed keys, each with its value here or nil. */
    method FilterKeys(keys: seq<string>) returns (n: map<string, Value>)
      ensures forall k :: k in n <==> k in keys
      ensures forall k :: k in n ==> n[k] == Get(k, Nil)
    {
      n := map[];
      var i := 0;
      while i < |keys|
        invariant 0 <= i <= |keys|
        invariant forall k :: k in n <==> k in keys[..i]
        invariant forall k :: k in n ==> n[k] == Get(k, Nil)
      {
        assert keys[..i + 1] == keys[..i] + [keys[i]];
        n := n[keys[i] := Get(keys[i], Nil)];
        i := i + 1;
      }
      assert keys[..i] == keys;
    }
  }

  /** The slice itself when it already holds the item, otherwise the slice with the item added at the end. */
  method AppendIfMissing(slice: seq<string>, item: string) returns (r: seq<string>)
    ensures item in slice ==> r == slice
    ensures item !in slice ==> r == slice + [item]
  {
    var k := 0;
    while k < |slice|
      invariant 0 <= k <= |slice|
      invariant item !in slice[..k]
    {
      if slice[k] == item {
        return slice;
      }
      assert slice[..k + 1] == slice[..k] + [slice[k]];
      k := k + 1;
    }
    assert slice[..k] == slice;
    r := slice + [item];
  }

  /** No element occurs twice. */
  predicate NoDuplicates<T(==)>(s: seq<T>) {
    forall i, j :: 0 <= i < j < |s| ==> s[i] != s[j]
  }

  /** The position of the first occurrence of x in s. */
  function FirstIndex<T(==)>(s: seq<T>, x: T): (k: nat)
    requires x in s
    ensures k < |s| && s[k] == x && x !in s[..k]
  {
    if s[0] == x then 0 else 1 + FirstIndex(s[1..], x)
  }

  /** a is obtained from b by deleting elements. */
  predicate Subsequence<T(==)>(a: seq<T>, b: seq<T>)
    decreases |b|
  {
    if a == [] then true
    else if b == [] then false
    else if a[|a| - 1] == b[|b| - 1] then Subsequence(a[..|a| - 1], b[..|b| - 1])
    else Subsequence(a, b[..|b| - 1])
  }

  /** Appending one element to both sides keeps a subsequence. */
  lemma SubsequenceBoth<T>(a: seq<T>, b: seq<T>, x: T)
    requires Subsequence(a, b)
    ensures Subsequence(a + [x], b + [x])
  {
    assert (a + [x])[..|a|] == a && (b + [x])[..|b|] == b;
  }

  /** Appending an element to the longer side keeps a subsequence. */
  lemma {:induction false} SubsequenceExtend<T>(a: seq<T>, b: seq<T>, x: T)
    requires Subsequence(a, b)
    ensures Subsequence(a, b + [x])
    decreases |b|, 1
  {
    assert (b + [x])[..|b|] == b;
    if a != [] && a[|a| - 1] == x {
      SubsequenceDropLast(a, b);
    }
  }

  /** Dropping the last element of the shorter side keeps a subsequence. */
  lemma {:induction false} SubsequenceDropLast<T>(a: seq<T>, b: seq<T>)
    requires a != [] && Subsequence(a, b)
    ensures Subsequence(a[..|a| - 1], b)
    decreases |b|, 0
  {
    var b' := b[..|b| - 1];
    assert b' + [b[|b| - 1]] == b;
    if a[|a| - 1] == b[|b| - 1] {
      SubsequenceExtend(a[..|a| - 1], b', b[|b| - 1]);
    } else {
      SubsequenceDropLast(a, b');
      SubsequenceExtend(a[..|a| - 1], b', b[|b| - 1]);
    }
  }

  /** The distinct elements of s, each at the place it first occurs. */
  function Distinct<T(==)>(s: seq<T>): seq<T> {
    if s == [] then []
    else
      var p := Distinct(s[..|s| - 1]);
      if s[|s| - 1] in p then p else p + [s[|s| - 1]]
  }

  /** Distinct holds exactly the elements of s, each once, in the order of their first occurrences. */
  lemma {:induction false} DistinctSpec<T>(s: seq<T>)
    ensures NoDuplicates(Distinct(s))
    ensures forall x :: x in Distinct(s) <==> x in s
    ensures forall i, j :: 0 <= i < j < |Distinct(s)| ==> FirstIndex(s, Distinct(s)[i]) < FirstIndex(s, Distinct(s)[j])
  {
    if s != [] {
      var init, x := s[..|s| - 1], s[|s| - 1];
      assert s == init + [x];
      DistinctSpec(init);
      var p := Distinct(init);
      forall y | y in init ensures FirstIndex(s, y) == FirstIndex(init, y) {
        FirstIndexPrefix(init, [x], y);
      }
      if x !in p {
        assert x !in init;
        assert FirstIndex(s, x) == |init| by {
          assert s[..|init|] == init;
        }
        forall i | 0 <= i < |p| ensures FirstIndex(s, p[i]) < |init| {
          assert p[i] in p;
        }
      }
    }
  }

  /** The first occurrence in a prefix is the first occurrence in the whole. */
  lemma {:induction false} FirstIndexPrefix<T>(a: seq<T>, b: seq<T>, y: T)
    requires y in a
    ensures FirstIndex(a + b, y) == FirstIndex(a, y)
  {
    if a[0] != y {
      FirstIndexPrefix(a[1..], b, y);
      assert (a + b)[1..] == a[1..] + b;
    }
  }

  /** SliceUniqMap: the distinct elements in first-occurrence order (DistinctSpec). */
  method SliceUniqMap(slice: seq<string>) returns (list: seq<string>)
    ensures list == Distinct(slice)
  {
    var keys: set<string> := {};
    list := [];
    var k := 0;
    while k < |slice|
      invariant 0 <= k <= |slice|
      invariant list == Distinct(slice[..k])
      invariant forall x :: x in keys <==> x in list
    {
      assert slice[..k + 1][..k] == slice[..k];
      if slice[k] !in keys {
        keys := keys + {slice[k]};
        list := list + [slice[k]];
      }
      k := k + 1;
    }
    assert slice[..k] == slice;
  }

  /** The trimmed elements of ls that are not empty, in order. */
  function TrimmedNonEmpty(ls: seq<string>): seq<string> {
    if ls == [] then []
    else
      var v := TrimSpace(ls[|ls| - 1]);
      TrimmedNonEmpty(ls[..|ls| - 1]) + (if v == "" then [] else [v])
  }

  /** Every element trimmed, in place. */
  function TrimAll(ls: seq<string>): (r: seq<string>)
    ensures |r| == |ls|
    ensures forall i :: 0 <= i < |ls| ==> r[i] == TrimSpace(ls[i])
  {
    seq(|ls|, i requires 0 <= i < |ls| => TrimSpace(ls[i]))
  }

  /** Every element of TrimmedNonEmpty is non-empty and trimmed, and it is no longer than the input. */
  lemma {:induction false} TrimmedNonEmptyClean(ls: seq<string>)
    ensures |TrimmedNonEmpty(ls)| <= |ls|
    ensures forall i :: 0 <= i < |TrimmedNonEmpty(ls)| ==>
      TrimmedNonEmpty(ls)[i] != "" && Trimmed(TrimmedNonEmpty(ls)[i])
  {
    if ls != [] {
      TrimmedNonEmptyClean(ls[..|ls| - 1]);
    }
  }

  /** TrimmedNonEmpty keeps the order of the input: it is a subsequence of the trimmed input. */
  lemma {:induction false} TrimmedNonEmptyOrder(ls: seq<string>)
    ensures Subsequence(TrimmedNonEmpty(ls), TrimAll(ls))
  {
    if ls != [] {
      var init := ls[..|ls| - 1];
      var v := TrimSpace(ls[|ls| - 1]);
      TrimmedNonEmptyOrder(init);
      assert TrimAll(ls) == TrimAll(init) + [v];
      if v == "" {
        assert TrimmedNonEmpty(ls) == TrimmedNonEmpty(init);
        SubsequenceExtend(TrimmedNonEmpty(init), TrimAll(init), v);
      } else {
        assert TrimmedNonEmpty(ls) == TrimmedNonEmpty(init) + [v];
        SubsequenceBoth(TrimmedNonEmpty(init), TrimAll(init), v);
      }
    }
  }

  /** Nothing that trims to a non-empty string is lost. */
  lemma {:induction false} TrimmedNonEmptyComplete(ls: seq<string>, x: string)
    requires x in ls && TrimSpace(x) != ""
    ensures TrimSpace(x) in TrimmedNonEmpty(ls)
  {
    var init := ls[..|ls| - 1];
    if x != ls[|ls| - 1] {
      assert ls == init + [ls[|ls| - 1]];
      TrimmedNonEmptyComplete(init, x);
    }
  }

  /** TrimSpacesList: the trimmed, non-empty elements in order (see the TrimmedNonEmpty lemmas). */
  method TrimSpacesList(ls: seq<string>) returns (out: seq<string>)
    ensures out == TrimmedNonEmpty(ls)
  {
    out := [];
    var k := 0;
    while k < |ls|
      invariant 0 <= k <= |ls|
      invariant out == TrimmedNonEmpty(ls[..k])
    {
      assert ls[..k + 1][..k] == ls[..k];
      var v := TrimSpace(ls[k]);
      if v != "" {
        out := out + [v];
      }
      k := k + 1;
    }
    assert ls[..k] == ls;
  }

  /** A <meta> element read through its "property" and "content" attributes (absent ones read as ""). */
  datatype MetaTag = MetaTag(property: string, content: string)

  /** The map key a tag contributes: the property without the prefix, trimmed. */
  function TagName(t: MetaTag, prefix: string): string {
    TrimSpace(TrimPrefix(t.property, prefix))
  }

  /** The value a tag contributes: its content, trimmed. */
  function TagValue(t: MetaTag): string {
    TrimSpace(t.content)
  }

  /** The tag is kept under key k: its property has the prefix and neither its name nor its value is empty. */
  predicate KeptAs(t: MetaTag, prefix: string, k: string) {
    HasPrefix(t.property, prefix) && TagName(t, prefix) == k && k != "" && TagValue(t) != ""
  }

  /** The map ExtractMetaTags builds from the page's tags, taken in document order. */
  function MetaTags(tags: seq<MetaTag>, prefix: string): map<string, Value> {
    if tags == [] then map[]
    else
      var m := MetaTags(tags[..|tags| - 1], prefix);
      var t := tags[|tags| - 1];
      if KeptAs(t, prefix, TagName(t, prefix)) then m[TagName(t, prefix) := Str(TagValue(t))] else m
  }

  /** A tag kept under a key puts the key in the map. */
  lemma {:induction false} MetaTagsHasKey(tags: seq<MetaTag>, prefix: string, k: string, i: int)
    requires 0 <= i < |tags| && KeptAs(tags[i], prefix, k)
    ensures k in MetaTags(tags, prefix)
  {
    var init, n := tags[..|tags| - 1], |tags| - 1;
    if i < n {
      assert tags[i] == init[i];
      MetaTagsHasKey(init, prefix, k, i);
    }
  }

  /** Every key of the map comes from a tag kept under it. */
  lemma {:induction false} MetaTagsKeySource(tags: seq<MetaTag>, prefix: string, k: string) returns (i: int)
    requires k in MetaTags(tags, prefix)
    ensures 0 <= i < |tags| && KeptAs(tags[i], prefix, k)
  {
    var init, n := tags[..|tags| - 1], |tags| - 1;
    if KeptAs(tags[n], prefix, k) {
      i := n;
    } else {
      i := MetaTagsKeySource(init, prefix, k);
      assert tags[i] == init[i];
    }
  }

  /** A key is present exactly when some tag is kept under it. */
  lemma MetaTagsKeys(tags: seq<MetaTag>, prefix: string, k: string)
    ensures k in MetaTags(tags, prefix) <==> exists i :: 0 <= i < |tags| && KeptAs(tags[i], prefix, k)
  {
    if k in MetaTags(tags, prefix) {
      var i := MetaTagsKeySource(tags, prefix, k);
    }
    forall i | 0 <= i < |tags| && KeptAs(tags[i], prefix, k) ensures k in MetaTags(tags, prefix) {
      MetaTagsHasKey(tags, prefix, k, i);
    }
  }

  /** The value under a key comes from the last tag kept under it: later tags overwrite earlier ones. */
  lemma {:induction false} MetaTagsLast(tags: seq<MetaTag>, prefix: string, k: string, i: int)
    requires 0 <= i < |tags| && KeptAs(tags[i], prefix, k)
    requires forall j :: i < j < |tags| ==> !KeptAs(tags[j], prefix, k)
    ensures k in MetaTags(tags, prefix) && MetaTags(tags, prefix)[k] == Str(TagValue(tags[i]))
  {
    var init, n := tags[..|tags| - 1], |tags| - 1;
    if i < n {
      assert forall j :: i < j < n ==> tags[j] == init[j];
      MetaTagsLast(init, prefix, k, i);
    }
  }

  /** The key and the value a kept tag contributes are trimmed. */
  lemma TagTrimmed(t: MetaTag, prefix: string)
    ensures Trimmed(TagName(t, prefix)) && Trimmed(TagValue(t))
  {
  }

  /** Every key and every value of the extracted map is non-empty and trimmed. */
  lemma {:induction false} MetaTagsClean(tags: seq<MetaTag>, prefix: string)
    ensures forall k :: k in MetaTags(tags, prefix) ==>
      k != "" && Trimmed(k) && MetaTags(tags, prefix)[k].Str? &&
      MetaTags(tags, prefix)[k].s != "" && Trimmed(MetaTags(tags, prefix)[k].s)
  {
    if tags != [] {
      MetaTagsClean(tags[..|tags| - 1], prefix);
      TagTrimmed(tags[|tags| - 1], prefix);
    }
  }

  /** ExtractMetaTags over the page's <meta> elements; the error it returns is always nil. */
  method ExtractMetaTags(tags: seq<MetaTag>, prefix: string) returns (m: map<string, Value>, err: Option<string>)
    ensures m == MetaTags(tags, prefix)
    ensures err == None
  {
    m := map[];
    var i := 0;
    while i < |tags|
      invariant 0 <= i <= |tags|
      invariant m == MetaTags(tags[..i], prefix)
    {
      assert tags[..i + 1][..i] == tags[..i];
      var t := tags[i];
      if HasPrefix(t.property, prefix) {
        var name := TagName(t, prefix);
        var value := TagValue(t);
        if value != "" && name != "" {
          m := m[name := Str(value)];
        }
      }
      i := i + 1;
    }
    assert tags[..i] == tags;
    err := None;
  }

  /** The runes the slug keeps as they are: ASCII letters and digits, '-' and '_'. */
  predicate SlugRune(c: char) {
    ('a' <= c <= 'z') || ('A' <= c <= 'Z') || ('0' <= c <= '9') || c == '-' || c == '_'
  }

  /** The runes a finished slug is made of. */
  predicate LowerSlugRune(c: char) {
    ('a' <= c <= 'z') || ('0' <= c <= '9') || c == '-' || c == '_'
  }

  /** Every rune of s is in the slug alphabet. */
  predicate SlugRunes(s: string) {
    forall i :: 0 <= i < |s| ==> SlugRune(s[i])
  }

  /** No two '-' stand next to each other. */
  predicate NoDoubleDash(s: string) {
    forall i :: 0 <= i < |s| - 1 ==> !(s[i] == '-' && s[i + 1] == '-')
  }

  /** Every rune outside the slug alphabet becomes '-'. */
  function ReplaceInvalid(s: string): (r: string)
    ensures |r| == |s| && SlugRunes(r)
    ensures forall i :: 0 <= i < |s| ==> (r[i] == s[i] <==> SlugRune(s[i]))
  {
    seq(|s|, i requires 0 <= i < |s| => if SlugRune(s[i]) then s[i] else '-')
  }

  /** Every run of two or more '-' becomes one '-'. */
  function CollapseDashes(s: string): (r: string)
    ensures s != [] ==> r != [] && r[0] == s[0] && r[|r| - 1] == s[|s| - 1]
    ensures NoDoubleDash(r)
    ensures SlugRunes(s) ==> SlugRunes(r)
  {
    if |s| <= 1 then s
    else if s[0] == '-' && s[1] == '-' then CollapseDashes(s[1..])
    else [s[0]] + CollapseDashes(s[1..])
  }

  /** One leading and one trailing '-' are removed. */
  function TrimDashEnds(s: string): (r: string)
    requires NoDoubleDash(s)
    ensures NoDoubleDash(r)
    ensures r == [] || (r[0] != '-' && r[|r| - 1] != '-')
    ensures SlugRunes(s) ==> SlugRunes(r)
  {
    var t := if s != [] && s[0] == '-' then s[1..] else s;
    if t != [] && t[|t| - 1] == '-' then t[..|t| - 1] else t
  }

  /** Slug: the URL slug of s. */
  function Slug(s: string): string {
    if s == "" then ""
    else
      var slug := ReplaceInvalid(s);
      if slug == "" then ""
      else ToLower(TrimDashEnds(CollapseDashes(slug)))
  }

  /** A slug is made of lower-case letters, digits, '-' and '_', holds no "--", and neither
      starts nor ends with '-'; the slug of "" is "". */
  lemma SlugSpec(s: string)
    ensures s == "" ==> Slug(s) == ""
    ensures forall i :: 0 <= i < |Slug(s)| ==> LowerSlugRune(Slug(s)[i])
    ensures NoDoubleDash(Slug(s))
    ensures Slug(s) == "" || (Slug(s)[0] != '-' && Slug(s)[|Slug(s)| - 1] != '-')
  {
    if s != "" {
      var t := TrimDashEnds(CollapseDashes(ReplaceInvalid(s)));
      var r := ToLower(t);
      assert r == Slug(s);
      forall i | 0 <= i < |r| ensures LowerSlugRune(r[i]) {
        assert SlugRune(t[i]);
      }
    }
  }

  /** The example of the package's tests. */
  lemma SlugExample()
    ensures Slug("this is a slug") == "this-is-a-slug"
  {
    var c := "this-is-a-slug";
    SlugExampleReplace();
    SlugExampleDashes();
    CollapseUnchanged(c);
    SlugExampleLower();
  }

  lemma SlugExampleReplace()
    ensures ReplaceInvalid("this is a slug") == "this-is-a-slug"
  {
    var s, r := "this is a slug", ReplaceInvalid("this is a slug");
    forall i | 0 <= i < |s| ensures r[i] == "this-is-a-slug"[i] {
    }
  }

  lemma SlugExampleDashes()
    ensures NoDoubleDash("this-is-a-slug")
  {
  }

  lemma SlugExampleLower()
    ensures ToLower("this-is-a-slug") == "this-is-a-slug"
  {
  }

  /** A string without "--" is left alone by CollapseDashes. */
  lemma {:induction false} CollapseUnchanged(s: string)
    requires NoDoubleDash(s)
    ensures CollapseDashes(s) == s
  {
    if |s| > 1 {
      CollapseUnchanged(s[1..]);
      assert [s[0]] + s[1..] == s;
    }
  }

  const NanosPerSecond := 1_000_000_000

  /** Go's integer division, which truncates toward zero. */
  function TruncDiv(a: int, b: nat): int
    requires b > 0
  {
    if a >= 0 then a / b else -((-a) / b)
  }

  /** The parts HumanizeDuration prints. */
  datatype Span = Seconds(seconds: int) | Minutes(minutes: nat) | HoursMinutes(hours: nat, minutes: nat)
                | DaysHoursMinutes(days: nat, hours: nat, minutes: nat)

  /** The unit breakdown of a duration in nanoseconds (time.Duration). */
  function Breakdown(d: int): Span {
    if d < 60 * NanosPerSecond then Seconds(TruncDiv(d, NanosPerSecond))
    else
      var secs := d / NanosPerSecond;
      if secs < 3600 then Minutes(secs / 60)
      else if secs < 86400 then HoursMinutes(secs / 3600, (secs / 60) % 60)
      else DaysHoursMinutes(secs / 86400, (secs / 3600) % 24, (secs / 60) % 60)
  }

  /** HumanizeDuration */
  function HumanizeDuration(d: int): string {
    match Breakdown(d)
    case Seconds(s) => IntToString(s) + " seconds"
    case Minutes(m) => IntToString(m) + " min"
    case HoursMinutes(h, m) => IntToString(h) + " hours " + IntToString(m) + " min"
    case DaysHoursMinutes(days, h, m) => IntToString(days) + " days " + IntToString(h) + " hours " + IntToString(m) + " minutes"
  }

  /** For a non-negative duration the unit is chosen by size from the whole seconds: seconds below a
      minute, minutes below an hour, hours and minutes below a day, else days, hours and minutes. */
  lemma HumanizeDurationSpec(d: int)
    requires d >= 0
    ensures var secs := d / NanosPerSecond; var out := HumanizeDuration(d);
      (secs < 60 ==> out == IntToString(secs) + " seconds") &&
      (60 <= secs < 3600 ==> out == IntToString(secs / 60) + " min") &&
      (3600 <= secs < 86400 ==> out == IntToString(secs / 3600) + " hours " + IntToString((secs / 60) % 60) + " min") &&
      (86400 <= secs ==>
        out == IntToString(secs / 86400) + " days " + IntToString((secs / 3600) % 24) + " hours " +
               IntToString((secs / 60) % 60) + " minutes")
  {
    var secs := d / NanosPerSecond;
    assert d < 60 * NanosPerSecond <==> secs < 60;
  }

  /** The breakdown is a unit conversion of the whole seconds of a non-negative duration:
      the printed parts add back up to them, short of the dropped seconds. */
  lemma BreakdownSpec(d: int)
    requires d >= 0
    ensures var secs := d / NanosPerSecond;
      match Breakdown(d)
      case Seconds(s) => s == secs && secs < 60
      case Minutes(m) => 60 <= secs < 3600 && m * 60 <= secs < m * 60 + 60
      case HoursMinutes(h, m) => 3600 <= secs < 86400 && h < 24 && m < 60 && h * 3600 + m * 60 <= secs < h * 3600 + m * 60 + 60
      case DaysHoursMinutes(days, h, m) => (secs >= 86400 && h < 24 && m < 60 &&
        days * 86400 + h * 3600 + m * 60 <= secs < days * 86400 + h * 3600 + m * 60 + 60)
  {
    var secs := d / NanosPerSecond;
    if secs >= 86400 {
      var days, h, m := secs / 86400, (secs / 3600) % 24, (secs / 60) % 60;
      assert secs / 3600 == days * 24 + h;
      assert secs / 60 == (secs / 3600) * 60 + m;
    } else if secs >= 3600 {
      var h, m := secs / 3600, (secs / 60) % 60;
      assert secs / 60 == h * 60 + m;
    }
  }
}
