/** The channel tree `renderTree` draws (public/app.js): channels and
    categories sorted by position, channels grouped by parent, and the rows
    of the pane, uncategorised channels first, then each category followed
    by its channels unless it is collapsed. */
module Tree {
  import opened Js
  import opened Html

  /** A channel or a category as the Relay reports it; categories are
      channels of their own kind and use the same record. */
  datatype Channel = Channel(id: string, name: string, channelType: int, parentId: Option<string>, position: int)

  /** `ch.parentId || "none"`: the bucket a channel is grouped under. */
  function ParentKey(c: Channel): (r: string)
    ensures r != ""
    ensures c.parentId.Some? && c.parentId.value != "" ==> r == c.parentId.value
    ensures r == "none" <==> c.parentId.None? || c.parentId.value == "" || c.parentId.value == "none"
  {
    if c.parentId.None? || c.parentId.value == "" then "none" else c.parentId.value
  }

  predicate SortedByPosition(s: seq<Channel>) {
    forall i, j :: 0 <= i < j < |s| ==> s[i].position <= s[j].position
  }

  /** Inserts `c` before the first element whose position is not below its
      own, so `c` precedes every element of equal position. */
  function Insert(c: Channel, s: seq<Channel>): seq<Channel> {
    if s == [] || c.position <= s[0].position then [c] + s else [s[0]] + Insert(c, s[1..])
  }

  /** Inserting adds exactly `c`. */
  lemma {:induction false} InsertPermutes(c: Channel, s: seq<Channel>)
    ensures multiset(Insert(c, s)) == multiset(s) + multiset{c}
  {
    if s != [] && s[0].position < c.position {
      InsertPermutes(c, s[1..]);
      assert s == [s[0]] + s[1..];
    }
  }

  /** Every element of `s` is at position `lo` or later. */
  predicate AllFrom(s: seq<Channel>, lo: int) {
    forall i :: 0 <= i < |s| ==> lo <= s[i].position
  }

  lemma {:induction false} InsertFrom(c: Channel, s: seq<Channel>, lo: int)
    requires AllFrom(s, lo) && lo <= c.position
    ensures AllFrom(Insert(c, s), lo)
  {
    if s != [] && s[0].position < c.position {
      InsertFrom(c, s[1..], lo);
    }
  }

  /** Inserting into a sorted sequence keeps it sorted. */
  lemma {:induction false} InsertSorted(c: Channel, s: seq<Channel>)
    requires SortedByPosition(s)
    ensures SortedByPosition(Insert(c, s))
  {
    var r := Insert(c, s);
    if s == [] || c.position <= s[0].position {
      assert r == [c] + s;
    } else {
      var t := Insert(c, s[1..]);
      InsertSorted(c, s[1..]);
      InsertFrom(c, s[1..], s[0].position);
      assert r == [s[0]] + t;
      forall i, j | 0 <= i < j < |r| ensures r[i].position <= r[j].position {
        assert r[j] == t[j - 1];
        if i > 0 {
          assert r[i] == t[i - 1];
        }
      }
    }
  }

  /** `[...s].sort((a, b) => a.position - b.position)`: a stable sort by
      ascending position, written as an insertion sort that inserts each
      element in front of the sorted rest. The result is sorted and a
      permutation of `s`. */
  function SortByPosition(s: seq<Channel>): (r: seq<Channel>)
    ensures multiset(r) == multiset(s)
    ensures SortedByPosition(r)
  {
    if s == [] then []
    else
      assert s == [s[0]] + s[1..];
      InsertPermutes(s[0], SortByPosition(s[1..]));
      InsertSorted(s[0], SortByPosition(s[1..]));
      Insert(s[0], SortByPosition(s[1..]))
  }

  /** The elements of `s` at position `p`, in their order in `s`. */
  function AtPosition(s: seq<Channel>, p: int): seq<Channel> {
    if s == [] then [] else (if s[0].position == p then [s[0]] else []) + AtPosition(s[1..], p)
  }

  lemma {:induction false} InsertAtPosition(c: Channel, s: seq<Channel>, p: int)
    ensures AtPosition(Insert(c, s), p) == (if c.position == p then [c] else []) + AtPosition(s, p)
  {
    var hc := if c.position == p then [c] else [];
    if s == [] || c.position <= s[0].position {
      var r := [c] + s;
      assert r[0] == c && r[1..] == s;
      assert AtPosition(r, p) == hc + AtPosition(s, p);
    } else {
      var t := Insert(c, s[1..]);
      var r := [s[0]] + t;
      assert r[0] == s[0] && r[1..] == t;
      var h0 := if s[0].position == p then [s[0]] else [];
      InsertAtPosition(c, s[1..], p);
      assert AtPosition(r, p) == h0 + (hc + AtPosition(s[1..], p));
      assert AtPosition(s, p) == h0 + AtPosition(s[1..], p);
      assert h0 == [] || hc == [];
      assert h0 + (hc + AtPosition(s[1..], p)) == hc + (h0 + AtPosition(s[1..], p));
    }
  }

  /** The sort is stable: elements of equal position keep their relative
      order. */
  lemma {:induction false} SortIsStable(s: seq<Channel>, p: int)
    ensures AtPosition(SortByPosition(s), p) == AtPosition(s, p)
  {
    if s != [] {
      SortIsStable(s[1..], p);
      InsertAtPosition(s[0], SortByPosition(s[1..]), p);
    }
  }

  /** The channels grouped under key `k`, in their order in `s`. */
  function Bucket(s: seq<Channel>, k: string): seq<Channel> {
    if s == [] then [] else (if ParentKey(s[0]) == k then [s[0]] else []) + Bucket(s[1..], k)
  }

  /** Grouping is a partition: every channel lands, with all its copies, in
      the bucket of its own key and in no other. */
  lemma {:induction false} BucketCount(s: seq<Channel>, k: string, c: Channel)
    ensures multiset(Bucket(s, k))[c] == if ParentKey(c) == k then multiset(s)[c] else 0
  {
    if s != [] {
      BucketCount(s[1..], k, c);
      assert s == [s[0]] + s[1..];
    }
  }

  /** A channel is in a bucket exactly when it is in the list and has that
      bucket's key. */
  lemma BucketMembers(s: seq<Channel>, k: string, c: Channel)
    ensures c in Bucket(s, k) <==> c in s && ParentKey(c) == k
  {
    BucketCount(s, k, c);
    assert c in Bucket(s, k) <==> c in multiset(Bucket(s, k));
    assert c in s <==> c in multiset(s);
  }

  lemma {:induction false} BucketFrom(s: seq<Channel>, k: string, lo: int)
    requires AllFrom(s, lo)
    ensures AllFrom(Bucket(s, k), lo)
  {
    if s != [] {
      BucketFrom(s[1..], k, lo);
    }
  }

  /** A bucket of a sorted list is sorted. */
  lemma {:induction false} BucketSorted(s: seq<Channel>, k: string)
    requires SortedByPosition(s)
    ensures SortedByPosition(Bucket(s, k))
  {
    if s != [] {
      var t := Bucket(s[1..], k);
      BucketSorted(s[1..], k);
      if ParentKey(s[0]) == k {
        BucketFrom(s[1..], k, s[0].position);
        var r := [s[0]] + t;
        forall i, j | 0 <= i < j < |r| ensures r[i].position <= r[j].position {
          assert r[j] == t[j - 1];
          if i > 0 {
            assert r[i] == t[i - 1];
          }
        }
      } else {
        assert Bucket(s, k) == t;
      }
    }
  }

  lemma {:induction false} BucketAppend(a: seq<Channel>, b: seq<Channel>, k: string)
    ensures Bucket(a + b, k) == Bucket(a, k) + Bucket(b, k)
  {
    if a == [] {
      assert a + b == b;
    } else {
      var head := if ParentKey(a[0]) == k then [a[0]] else [];
      assert (a + b)[0] == a[0] && (a + b)[1..] == a[1..] + b;
      assert Bucket(a + b, k) == head + Bucket(a[1..] + b, k);
      BucketAppend(a[1..], b, k);
      assert Bucket(a, k) == head + Bucket(a[1..], k);
    }
  }

  lemma {:induction false} BucketInsert(c: Channel, s: seq<Channel>, k: string)
    requires SortedByPosition(s)
    ensures Bucket(Insert(c, s), k) == if ParentKey(c) == k then Insert(c, Bucket(s, k)) else Bucket(s, k)
  {
    var hc := if ParentKey(c) == k then [c] else [];
    if s == [] || c.position <= s[0].position {
      var r := [c] + s;
      assert r[0] == c && r[1..] == s;
      assert Bucket(r, k) == hc + Bucket(s, k);
      if ParentKey(c) == k {
        BucketFrom(s, k, c.position);
        var b := Bucket(s, k);
        assert b == [] || c.position <= b[0].position;
        assert Insert(c, b) == [c] + b;
      }
    } else {
      var t := Insert(c, s[1..]);
      var r := [s[0]] + t;
      assert r[0] == s[0] && r[1..] == t;
      var h0 := if ParentKey(s[0]) == k then [s[0]] else [];
      var b := Bucket(s[1..], k);
      BucketInsert(c, s[1..], k);
      assert Bucket(r, k) == h0 + Bucket(t, k);
      assert Bucket(s, k) == h0 + b;
      if ParentKey(c) == k {
        assert Bucket(t, k) == Insert(c, b);
        if ParentKey(s[0]) == k {
          assert (h0 + b)[0] == s[0] && (h0 + b)[1..] == b;
          assert Insert(c, h0 + b) == [s[0]] + Insert(c, b);
        } else {
          assert h0 + b == b;
          assert h0 + Insert(c, b) == Insert(c, b);
        }
      } else {
        assert Bucket(t, k) == b;
      }
    }
  }

  /** Each bucket of the sorted channels is the sorted bucket: the channels
      of one parent, in ascending position, ties in their original order. */
  lemma {:induction false} BucketOfSorted(s: seq<Channel>, k: string)
    ensures Bucket(SortByPosition(s), k) == SortByPosition(Bucket(s, k))
  {
    if s != [] {
      var rest := SortByPosition(s[1..]);
      var b := Bucket(s[1..], k);
      BucketOfSorted(s[1..], k);
      BucketInsert(s[0], rest, k);
      assert SortByPosition(s) == Insert(s[0], rest);
      if ParentKey(s[0]) == k {
        var bs := [s[0]] + b;
        assert Bucket(s, k) == bs;
        assert bs[0] == s[0] && bs[1..] == b;
        assert SortByPosition(bs) == Insert(s[0], SortByPosition(b));
      } else {
        assert Bucket(s, k) == b;
      }
    }
  }

  /** Appending a channel extends its own bucket by that channel. */
  lemma BucketSnoc(s: seq<Channel>, c: Channel, k: string)
    ensures Bucket(s + [c], k) == Bucket(s, k) + (if ParentKey(c) == k then [c] else [])
  {
    BucketAppend(s, [c], k);
    assert [c][1..] == [];
  }

  /** `byParent.get(k) || []`. */
  function Lookup(byParent: map<string, seq<Channel>>, k: string): seq<Channel> {
    if k in byParent then byParent[k] else []
  }

  /** The loop that builds `byParent`: for each channel, create its key's
      list when missing, then push the channel. A key is present exactly
      when some channel has it, and each list is that key's bucket. */
  method GroupByParent(chans: seq<Channel>) returns (byParent: map<string, seq<Channel>>)
    ensures forall k :: k in byParent <==> Bucket(chans, k) != []
    ensures forall k :: Lookup(byParent, k) == Bucket(chans, k)
  {
    byParent := map[];
    for i := 0 to |chans|
      invariant forall k :: Lookup(byParent, k) == Bucket(chans[..i], k)
      invariant forall k :: k in byParent ==> byParent[k] != []
    {
      var ch := chans[i];
      var key := ParentKey(ch);
      ghost var before := byParent;
      if key !in byParent {
        byParent := byParent[key := []];
      }
      byParent := byParent[key := byParent[key] + [ch]];
      assert chans[..i + 1] == chans[..i] + [ch];
      forall k ensures Lookup(byParent, k) == Bucket(chans[..i + 1], k) {
        BucketSnoc(chans[..i], ch, k);
        if k != key {
          assert Lookup(byParent, k) == Lookup(before, k);
        }
      }
    }
    assert chans[..|chans|] == chans;
  }

  datatype SelectionKind = ChannelItem | CategoryItem

  /** `state.selected`: the kind and id of the selected item. */
  datatype Selection = Selection(kind: SelectionKind, id: string)

  /** A row of the channels pane. */
  datatype Row =
    | UncategorisedHead
    | CategoryHead(category: Channel, text: string, collapsed: bool)
    | ChannelRow(channel: Channel, icon: string, text: string, active: bool)

  /** `iconForChannel`: a speaker for voice channels (type 2), `#` otherwise. */
  function Icon(c: Channel): (r: string)
    ensures |r| == 1
    ensures r == "#" <==> c.channelType != 2
  {
    if c.channelType == 2 then "\U{1F50A}" else "#"
  }

  /** The row of a channel: its icon, its escaped name, and whether it is
      the selected channel. */
  function ChannelRowOf(c: Channel, selected: Option<Selection>): Row {
    ChannelRow(c, Icon(c), EscapeHtml(c.name), selected == Some(Selection(ChannelItem, c.id)))
  }

  function ChannelRows(list: seq<Channel>, selected: Option<Selection>): seq<Row> {
    if list == [] then [] else [ChannelRowOf(list[0], selected)] + ChannelRows(list[1..], selected)
  }

  lemma {:induction false} ChannelRowsSnoc(list: seq<Channel>, c: Channel, selected: Option<Selection>)
    ensures ChannelRows(list + [c], selected) == ChannelRows(list, selected) + [ChannelRowOf(c, selected)]
  {
    if list == [] {
      assert [c][1..] == [];
    } else {
      assert (list + [c])[0] == list[0] && (list + [c])[1..] == list[1..] + [c];
      ChannelRowsSnoc(list[1..], c, selected);
    }
  }

  /** One more channel of `list` adds its row at the end. */
  lemma ChannelRowsPrefix(list: seq<Channel>, j: nat, selected: Option<Selection>)
    requires j < |list|
    ensures ChannelRows(list[..j + 1], selected) == ChannelRows(list[..j], selected) + [ChannelRowOf(list[j], selected)]
  {
    assert list[..j + 1] == list[..j] + [list[j]];
    ChannelRowsSnoc(list[..j], list[j], selected);
  }

  /** A category's block: its head, then its channels unless collapsed. */
  function Section(cat: Channel, chans: seq<Channel>, collapsed: set<string>, selected: Option<Selection>): seq<Row> {
    [CategoryHead(cat, EscapeHtml(cat.name), cat.id in collapsed)]
      + (if cat.id in collapsed then [] else ChannelRows(Bucket(chans, cat.id), selected))
  }

  function Sections(cats: seq<Channel>, chans: seq<Channel>, collapsed: set<string>, selected: Option<Selection>): seq<Row> {
    if cats == [] then []
    else Sections(cats[..|cats| - 1], chans, collapsed, selected) + Section(cats[|cats| - 1], chans, collapsed, selected)
  }

  /** Every category contributes at least its head row. */
  lemma {:induction false} SectionsLength(cats: seq<Channel>, chans: seq<Channel>, collapsed: set<string>, selected: Option<Selection>)
    ensures |Sections(cats, chans, collapsed, selected)| >= |cats|
  {
    if cats != [] {
      SectionsLength(cats[..|cats| - 1], chans, collapsed, selected);
    }
  }

  /** Adding a category at the end adds its block at the end. */
  lemma SectionsSnoc(cats: seq<Channel>, cat: Channel, chans: seq<Channel>, collapsed: set<string>, selected: Option<Selection>)
    ensures Sections(cats + [cat], chans, collapsed, selected) == Sections(cats, chans, collapsed, selected) + Section(cat, chans, collapsed, selected)
  {
    var all := cats + [cat];
    assert all[..|all| - 1] == cats && all[|all| - 1] == cat;
  }

  /** The "TEXT CHANNELS" block, present only when some channel has no
      parent. */
  function UncategorisedSection(chans: seq<Channel>, selected: Option<Selection>): seq<Row> {
    var unc := Bucket(chans, "none");
    if unc == [] then [] else [UncategorisedHead] + ChannelRows(unc, selected)
  }

  /** What `renderTree` draws for the given state. */
  function TreeRows(categories: seq<Channel>, channels: seq<Channel>, collapsed: set<string>, selected: Option<Selection>): (r: seq<Row>)
    ensures |r| >= |categories|
  {
    var chans := SortByPosition(channels);
    var cats := SortByPosition(categories);
    assert |cats| == |multiset(cats)| == |multiset(categories)| == |categories|;
    SectionsLength(cats, chans, collapsed, selected);
    UncategorisedSection(chans, selected) + Sections(cats, chans, collapsed, selected)
  }

  /** The channels the rows show, in order. */
  function Shown(rows: seq<Row>): seq<Channel> {
    if rows == [] then [] else (if rows[0].ChannelRow? then [rows[0].channel] else []) + Shown(rows[1..])
  }

  /** The categories whose heads the rows show, in order. */
  function Heads(rows: seq<Row>): seq<Channel> {
    if rows == [] then [] else (if rows[0].CategoryHead? then [rows[0].category] else []) + Heads(rows[1..])
  }

  lemma {:induction false} ShownAppend(a: seq<Row>, b: seq<Row>)
    ensures Shown(a + b) == Shown(a) + Shown(b)
  {
    if a == [] {
      assert a + b == b;
    } else {
      assert (a + b)[0] == a[0] && (a + b)[1..] == a[1..] + b;
      ShownAppend(a[1..], b);
    }
  }

  lemma {:induction false} HeadsAppend(a: seq<Row>, b: seq<Row>)
    ensures Heads(a + b) == Heads(a) + Heads(b)
  {
    if a == [] {
      assert a + b == b;
    } else {
      assert (a + b)[0] == a[0] && (a + b)[1..] == a[1..] + b;
      HeadsAppend(a[1..], b);
    }
  }

  lemma {:induction false} ShownChannelRows(list: seq<Channel>, selected: Option<Selection>)
    ensures Shown(ChannelRows(list, selected)) == list
    ensures Heads(ChannelRows(list, selected)) == []
  {
    if list != [] {
      ShownChannelRows(list[1..], selected);
      ShownAppend([ChannelRowOf(list[0], selected)], ChannelRows(list[1..], selected));
      HeadsAppend([ChannelRowOf(list[0], selected)], ChannelRows(list[1..], selected));
      assert list == [list[0]] + list[1..];
    }
  }

  lemma ShownSection(cat: Channel, chans: seq<Channel>, collapsed: set<string>, selected: Option<Selection>)
    ensures Shown(Section(cat, chans, collapsed, selected)) == if cat.id in collapsed then [] else Bucket(chans, cat.id)
    ensures Heads(Section(cat, chans, collapsed, selected)) == [cat]
  {
    var head := CategoryHead(cat, EscapeHtml(cat.name), cat.id in collapsed);
    var rest := if cat.id in collapsed then [] else ChannelRows(Bucket(chans, cat.id), selected);
    ShownAppend([head], rest);
    HeadsAppend([head], rest);
    ShownChannelRows(Bucket(chans, cat.id), selected);
  }

  /** A channel is shown in the category blocks exactly when it has one of
      the categories as parent and that category is expanded. */
  lemma {:induction false} ShownSections(cats: seq<Channel>, chans: seq<Channel>, collapsed: set<string>, selected: Option<Selection>, c: Channel)
    ensures c in Shown(Sections(cats, chans, collapsed, selected))
            <==> exists cat :: cat in cats && cat.id !in collapsed && c in Bucket(chans, cat.id)
    ensures Heads(Sections(cats, chans, collapsed, selected)) == cats
  {
    if cats != [] {
      var init, last := cats[..|cats| - 1], cats[|cats| - 1];
      assert cats == init + [last];
      ShownSections(init, chans, collapsed, selected, c);
      ShownAppend(Sections(init, chans, collapsed, selected), Section(last, chans, collapsed, selected));
      HeadsAppend(Sections(init, chans, collapsed, selected), Section(last, chans, collapsed, selected));
      ShownSection(last, chans, collapsed, selected);
      if c in Shown(Sections(cats, chans, collapsed, selected)) {
        if c !in Shown(Sections(init, chans, collapsed, selected)) {
          assert last in cats && last.id !in collapsed && c in Bucket(chans, last.id);
        }
      }
      if cat :| cat in cats && cat.id !in collapsed && c in Bucket(chans, cat.id) {
        if cat != last {
          assert cat in init;
        }
      }
    }
  }

  lemma SortKeepsMembers(s: seq<Channel>, x: Channel)
    ensures x in SortByPosition(s) <==> x in s
  {
    assert x in SortByPosition(s) <==> x in multiset(SortByPosition(s));
  }

  /** Which channels the tree shows: a channel is drawn exactly when it is
      one of the channels and either has no parent or has a parent among the
      categories that is not collapsed. A channel whose parent is no known
      category, or a collapsed one, is not drawn. */
  lemma TreeRowsShowsChannel(categories: seq<Channel>, channels: seq<Channel>, collapsed: set<string>,
                             selected: Option<Selection>, c: Channel)
    ensures c in Shown(TreeRows(categories, channels, collapsed, selected))
            <==> c in channels && (ParentKey(c) == "none"
                                   || exists cat :: cat in categories && cat.id == ParentKey(c) && cat.id !in collapsed)
  {
    var chans := SortByPosition(channels);
    var cats := SortByPosition(categories);
    var unc := Bucket(chans, "none");
    ShownAppend(UncategorisedSection(chans, selected), Sections(cats, chans, collapsed, selected));
    SortKeepsMembers(channels, c);
    BucketMembers(chans, "none", c);
    ShownChannelRows(unc, selected);
    ShownAppend([UncategorisedHead], ChannelRows(unc, selected));
    assert c in Shown(UncategorisedSection(chans, selected)) <==> c in channels && ParentKey(c) == "none";
    ShownSections(cats, chans, collapsed, selected, c);
    var inSections := c in Shown(Sections(cats, chans, collapsed, selected));
    if inSections {
      var cat :| cat in cats && cat.id !in collapsed && c in Bucket(chans, cat.id);
      SortKeepsMembers(categories, cat);
      BucketMembers(chans, cat.id, c);
      assert cat in categories && cat.id == ParentKey(c);
    }
    if c in channels && exists cat :: cat in categories && cat.id == ParentKey(c) && cat.id !in collapsed {
      var cat :| cat in categories && cat.id == ParentKey(c) && cat.id !in collapsed;
      SortKeepsMembers(categories, cat);
      BucketMembers(chans, cat.id, c);
      assert cat in cats && c in Bucket(chans, cat.id);
    }
  }

  /** Collapsing a category hides its channels. */
  lemma CollapsedHidesChildren(categories: seq<Channel>, channels: seq<Channel>, collapsed: set<string>,
                               selected: Option<Selection>, c: Channel)
    requires ParentKey(c) != "none" && ParentKey(c) in collapsed
    ensures c !in Shown(TreeRows(categories, channels, collapsed, selected))
  {
    TreeRowsShowsChannel(categories, channels, collapsed, selected, c);
  }

  /** A channel whose parent is not among the loaded categories is not
      drawn at all: it is neither uncategorised nor under any head. */
  lemma OrphanHidden(categories: seq<Channel>, channels: seq<Channel>, collapsed: set<string>,
                     selected: Option<Selection>, c: Channel)
    requires ParentKey(c) != "none"
    requires forall cat :: cat in categories ==> cat.id != ParentKey(c)
    ensures c !in Shown(TreeRows(categories, channels, collapsed, selected))
  {
    TreeRowsShowsChannel(categories, channels, collapsed, selected, c);
  }

  /** Only the selected channel's rows are marked active, and every row of
      it is. */
  predicate ActiveMarks(rows: seq<Row>, selected: Option<Selection>) {
    forall i :: 0 <= i < |rows| && rows[i].ChannelRow? ==>
      (rows[i].active <==> selected == Some(Selection(ChannelItem, rows[i].channel.id)))
  }

  lemma ActiveMarksAppend(a: seq<Row>, b: seq<Row>, selected: Option<Selection>)
    requires ActiveMarks(a, selected) && ActiveMarks(b, selected)
    ensures ActiveMarks(a + b, selected)
  {
    forall i | 0 <= i < |a + b| && (a + b)[i].ChannelRow?
      ensures (a + b)[i].active <==> selected == Some(Selection(ChannelItem, (a + b)[i].channel.id))
    {
      if i >= |a| {
        assert (a + b)[i] == b[i - |a|];
      }
    }
  }

  lemma {:induction false} ActiveMarksChannelRows(list: seq<Channel>, selected: Option<Selection>)
    ensures ActiveMarks(ChannelRows(list, selected), selected)
  {
    if list != [] {
      ActiveMarksChannelRows(list[1..], selected);
      ActiveMarksAppend([ChannelRowOf(list[0], selected)], ChannelRows(list[1..], selected), selected);
    }
  }

  lemma ActiveMarksSection(cat: Channel, chans: seq<Channel>, collapsed: set<string>, selected: Option<Selection>)
    ensures ActiveMarks(Section(cat, chans, collapsed, selected), selected)
  {
    var head := [CategoryHead(cat, EscapeHtml(cat.name), cat.id in collapsed)];
    var list := if cat.id in collapsed then [] else Bucket(chans, cat.id);
    ActiveMarksChannelRows(list, selected);
    assert Section(cat, chans, collapsed, selected) == head + ChannelRows(list, selected);
    ActiveMarksAppend(head, ChannelRows(list, selected), selected);
  }

  lemma {:induction false} ActiveMarksSections(cats: seq<Channel>, chans: seq<Channel>, collapsed: set<string>, selected: Option<Selection>)
    ensures ActiveMarks(Sections(cats, chans, collapsed, selected), selected)
  {
    if cats != [] {
      var init, last := cats[..|cats| - 1], cats[|cats| - 1];
      ActiveMarksSections(init, chans, collapsed, selected);
      ActiveMarksSection(last, chans, collapsed, selected);
      ActiveMarksAppend(Sections(init, chans, collapsed, selected), Section(last, chans, collapsed, selected), selected);
    }
  }

  /** In the drawn tree a channel row is highlighted exactly when it is the
      selected channel's row; a selected category highlights nothing. */
  lemma TreeRowsActive(categories: seq<Channel>, channels: seq<Channel>, collapsed: set<string>, selected: Option<Selection>)
    ensures ActiveMarks(TreeRows(categories, channels, collapsed, selected), selected)
  {
    var chans := SortByPosition(channels);
    var unc := Bucket(chans, "none");
    ActiveMarksChannelRows(unc, selected);
    ActiveMarksAppend([UncategorisedHead], ChannelRows(unc, selected), selected);
    ActiveMarksSections(SortByPosition(categories), chans, collapsed, selected);
    ActiveMarksAppend(UncategorisedSection(chans, selected), Sections(SortByPosition(categories), chans, collapsed, selected), selected);
  }

  /** The category heads come in ascending position: they are exactly the
      categories, sorted. */
  lemma TreeRowsHeadsSorted(categories: seq<Channel>, channels: seq<Channel>, collapsed: set<string>,
                            selected: Option<Selection>)
    ensures Heads(TreeRows(categories, channels, collapsed, selected)) == SortByPosition(categories)
  {
    var chans := SortByPosition(channels);
    var cats := SortByPosition(categories);
    var unc := Bucket(chans, "none");
    HeadsAppend(UncategorisedSection(chans, selected), Sections(cats, chans, collapsed, selected));
    ShownSections(cats, chans, collapsed, selected, Channel("", "", 0, None, 0));
    ShownChannelRows(unc, selected);
    HeadsAppend([UncategorisedHead], ChannelRows(unc, selected));
  }

  /** Whether channel `c` may be drawn under the header row `h`. */
  predicate Belongs(c: Channel, h: Row) {
    match h
    case UncategorisedHead => ParentKey(c) == "none"
    case CategoryHead(cat, _, isCollapsed) => !isCollapsed && ParentKey(c) == cat.id
    case ChannelRow(_, _, _, _) => false
  }

  /** Reading the rows top to bottom with `header` the latest header seen,
      every channel row comes after some header and belongs under it. */
  predicate Nested(rows: seq<Row>, header: Option<Row>) {
    if rows == [] then true
    else if rows[0].ChannelRow? then header.Some? && Belongs(rows[0].channel, header.value) && Nested(rows[1..], header)
    else Nested(rows[1..], Some(rows[0]))
  }

  lemma {:induction false} NestedAppend(a: seq<Row>, b: seq<Row>, header: Option<Row>)
    requires Nested(a, header) && Nested(b, None)
    requires b == [] || !b[0].ChannelRow?
    ensures Nested(a + b, header)
  {
    if a == [] {
      assert a + b == b;
      if b != [] {
        assert b[1..] == b[1..];
      }
    } else {
      assert (a + b)[0] == a[0] && (a + b)[1..] == a[1..] + b;
      NestedAppend(a[1..], b, if a[0].ChannelRow? then header else Some(a[0]));
    }
  }

  lemma {:induction false} NestedChannelRows(list: seq<Channel>, h: Row, selected: Option<Selection>)
    requires forall i :: 0 <= i < |list| ==> Belongs(list[i], h)
    ensures Nested(ChannelRows(list, selected), Some(h))
  {
    if list != [] {
      NestedChannelRows(list[1..], h, selected);
    }
  }

  lemma NestedUnderHead(h: Row, list: seq<Channel>, selected: Option<Selection>)
    requires !h.ChannelRow?
    requires forall i :: 0 <= i < |list| ==> Belongs(list[i], h)
    ensures Nested([h] + ChannelRows(list, selected), None)
  {
    NestedChannelRows(list, h, selected);
    assert ([h] + ChannelRows(list, selected))[1..] == ChannelRows(list, selected);
  }

  lemma {:induction false} NestedSections(cats: seq<Channel>, chans: seq<Channel>, collapsed: set<string>, selected: Option<Selection>)
    ensures Nested(Sections(cats, chans, collapsed, selected), None)
    ensures var rows := Sections(cats, chans, collapsed, selected); rows == [] || rows[0].CategoryHead?
  {
    if cats != [] {
      var init, last := cats[..|cats| - 1], cats[|cats| - 1];
      NestedSections(init, chans, collapsed, selected);
      var b := Bucket(chans, last.id);
      var list := if last.id in collapsed then [] else b;
      var head := CategoryHead(last, EscapeHtml(last.name), last.id in collapsed);
      forall i | 0 <= i < |list| ensures Belongs(list[i], head) {
        BucketMembers(chans, last.id, list[i]);
      }
      NestedUnderHead(head, list, selected);
      assert Section(last, chans, collapsed, selected) == [head] + ChannelRows(list, selected);
      NestedAppend(Sections(init, chans, collapsed, selected), Section(last, chans, collapsed, selected), None);
    }
  }

  /** Every channel row of the tree sits under the nearest header above it,
      and that header is its own: "TEXT CHANNELS" for a channel without a
      parent, otherwise the expanded head of its parent category. */
  lemma TreeRowsNested(categories: seq<Channel>, channels: seq<Channel>, collapsed: set<string>, selected: Option<Selection>)
    ensures Nested(TreeRows(categories, channels, collapsed, selected), None)
  {
    var chans := SortByPosition(channels);
    var cats := SortByPosition(categories);
    var unc := Bucket(chans, "none");
    NestedSections(cats, chans, collapsed, selected);
    if unc != [] {
      forall i | 0 <= i < |unc| ensures Belongs(unc[i], UncategorisedHead) {
        BucketMembers(chans, "none", unc[i]);
      }
      NestedUnderHead(UncategorisedHead, unc, selected);
    }
    NestedAppend(UncategorisedSection(chans, selected), Sections(cats, chans, collapsed, selected), None);
  }

  /** The tree opens with the "TEXT CHANNELS" head exactly when some channel
      has no parent. */
  lemma TreeRowsUncategorisedFirst(categories: seq<Channel>, channels: seq<Channel>, collapsed: set<string>, selected: Option<Selection>)
    ensures var rows := TreeRows(categories, channels, collapsed, selected);
            (rows != [] && rows[0] == UncategorisedHead) <==> exists c :: c in channels && ParentKey(c) == "none"
  {
    var chans := SortByPosition(channels);
    var cats := SortByPosition(categories);
    var unc := Bucket(chans, "none");
    NestedSections(cats, chans, collapsed, selected);
    if c :| c in channels && ParentKey(c) == "none" {
      SortKeepsMembers(channels, c);
      BucketMembers(chans, "none", c);
    }
    if unc != [] {
      BucketMembers(chans, "none", unc[0]);
      SortKeepsMembers(channels, unc[0]);
    }
  }
}
