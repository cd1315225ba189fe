/** Importing custom widgets: a title nobody has yet for each entry, and ids that keep the
    entries of one import apart. */
module WidgetImport {
  import opened Basics
  import RemotePaths

  const WIDGET_EXPORT_FORMAT := "kkterm-widgets"
  const WIDGET_EXPORT_VERSION := 1

  /** `wellFormed` stands for the checks on the body and the settings schema. */
  datatype Entry = Entry(title: string, content: string, wellFormed: bool)

  datatype WidgetFile = WidgetFile(format: string, version: nat, widgets: seq<Entry>)

  datatype Widget = Widget(id: string, title: string, content: string)

  // ------------------------------------------------------------------
  // Decimal numerals
  // ------------------------------------------------------------------

  function Digit(n: nat): char
    requires n < 10
  {
    ('0' as int + n) as char
  }

  function Decimal(n: nat): (s: string)
    ensures s != "" && forall c :: c in s ==> '0' <= c <= '9'
  {
    if n < 10 then [Digit(n)] else Decimal(n / 10) + [Digit(n % 10)]
  }

  function Value(s: string): int {
    if s == "" then 0 else Value(s[..|s| - 1]) * 10 + (s[|s| - 1] as int - '0' as int)
  }

  lemma {:induction false} ValueOfDecimal(n: nat)
    ensures Value(Decimal(n)) == n
  {
    if n < 10 {
      assert Decimal(n)[..0] == "";
    } else {
      var s := Decimal(n);
      assert s[..|s| - 1] == Decimal(n / 10);
      ValueOfDecimal(n / 10);
    }
  }

  lemma DecimalInjective(m: nat, n: nat)
    requires Decimal(m) == Decimal(n)
    ensures m == n
  {
    ValueOfDecimal(m);
    ValueOfDecimal(n);
  }

  // ------------------------------------------------------------------
  // Unique titles
  // ------------------------------------------------------------------

  function Suffixed(base: string): string {
    base + " (imported)"
  }

  function Counted(base: string, n: nat): string {
    base + " (imported " + Decimal(n) + ")"
  }

  lemma CountedInjective(base: string, m: nat, n: nat)
    requires Counted(base, m) == Counted(base, n)
    ensures m == n
  {
    var start := |base + " (imported "|;
    assert Counted(base, m)[start..|Counted(base, m)| - 1] == Decimal(m);
    assert Counted(base, n)[start..|Counted(base, n)| - 1] == Decimal(n);
    DecimalInjective(m, n);
  }

  /** The numbered titles up to a counter. */
  function Numbered(base: string, counter: nat): set<string> {
    set n | 2 <= n < counter :: Counted(base, n)
  }

  lemma {:induction false} NumberedSize(base: string, counter: nat)
    requires counter >= 2
    ensures |Numbered(base, counter)| == counter - 2
  {
    if counter == 2 {
      assert Numbered(base, counter) == {};
    } else {
      NumberedSize(base, counter - 1);
      var less, last := Numbered(base, counter - 1), Counted(base, counter - 1);
      assert Numbered(base, counter) == less + {last};
      if last in less {
        var n :| 2 <= n < counter - 1 && Counted(base, n) == last;
        CountedInjective(base, n, counter - 1);
      }
    }
  }

  lemma SmallerSet<T>(a: set<T>, b: set<T>)
    requires a <= b
    ensures |a| <= |b|
  {
    assert b == a + (b - a);
  }

  /** If all numbered titles up to a counter are taken, with the plain and the suffixed
      one, then so many titles are taken. */
  lemma Pigeonhole(base: string, counter: nat, taken: set<string>)
    requires counter >= 2 && base in taken && Suffixed(base) in taken && Numbered(base, counter) <= taken
    ensures counter <= |taken|
  {
    var numbered, plain := Numbered(base, counter), {base, Suffixed(base)};
    NumberedSize(base, counter);
    assert |base| < |Suffixed(base)| && |plain| == 2;
    forall t | t in numbered ensures t !in plain {
      var n :| 2 <= n < counter && t == Counted(base, n);
      assert |t| > |Suffixed(base)|;
    }
    SmallerSet(numbered + plain, taken);
    assert numbered * plain == {};
  }

  /** A new title: the entry's own if it is free, else with the suffix, else with the least
      counter that makes it free. */
  ghost predicate IsUniqueTitle(base: string, taken: set<string>, r: string) {
    && r !in taken
    && (r == base || (base in taken && (r == Suffixed(base) || (Suffixed(base) in taken &&
          exists n :: 2 <= n && IsLeastFree(base, taken, n) && r == Counted(base, n)))))
  }

  predicate IsLeastFree(base: string, taken: set<string>, n: nat) {
    Counted(base, n) !in taken && Numbered(base, n) <= taken
  }

  lemma NumberedHas(base: string, m: nat, n: nat)
    requires 2 <= m && 2 <= n && m != n
    ensures if m < n then Counted(base, m) in Numbered(base, n) else Counted(base, n) in Numbered(base, m)
  {
  }

  lemma UniqueTitleDetermined(base: string, taken: set<string>, r: string, s: string)
    requires IsUniqueTitle(base, taken, r) && IsUniqueTitle(base, taken, s)
    ensures r == s
  {
    if base in taken && Suffixed(base) in taken {
      var m :| 2 <= m && IsLeastFree(base, taken, m) && r == Counted(base, m);
      var n :| 2 <= n && IsLeastFree(base, taken, n) && s == Counted(base, n);
      if m != n { NumberedHas(base, m, n); }
    }
  }

  /** `unique_widget_title`. The search ends: no counter beyond the number of taken titles
      is ever tried. */
  method UniqueWidgetTitle(base: string, taken: set<string>) returns (r: string)
    ensures IsUniqueTitle(base, taken, r)
  {
    if base !in taken {
      return base;
    }
    var suffixed := Suffixed(base);
    if suffixed !in taken {
      return suffixed;
    }
    var counter: nat := 2;
    Pigeonhole(base, 2, taken);
    while Counted(base, counter) in taken
      invariant counter >= 2 && Numbered(base, counter) <= taken && counter <= |taken|
      decreases |taken| - counter
    {
      assert Numbered(base, counter + 1) == Numbered(base, counter) + {Counted(base, counter)};
      Pigeonhole(base, counter + 1, taken);
      counter := counter + 1;
    }
    return Counted(base, counter);
  }

  /** There always is such a title. */
  lemma UniqueTitleExists(base: string, taken: set<string>) returns (r: string)
    ensures IsUniqueTitle(base, taken, r)
  {
    r := base;
    if base in taken {
      r := Suffixed(base);
      if r in taken {
        var n := LeastFreeFrom(base, taken, 2);
        r := Counted(base, n);
      }
    }
  }

  lemma {:induction false} LeastFreeFrom(base: string, taken: set<string>, counter: nat) returns (n: nat)
    requires counter >= 2 && base in taken && Suffixed(base) in taken && Numbered(base, counter) <= taken
    ensures n >= 2 && IsLeastFree(base, taken, n)
    decreases |taken| + 1 - counter
  {
    Pigeonhole(base, counter, taken);
    n := counter;
    if Counted(base, counter) in taken {
      assert Numbered(base, counter + 1) == Numbered(base, counter) + {Counted(base, counter)};
      n := LeastFreeFrom(base, taken, counter + 1);
    }
  }

  // ------------------------------------------------------------------
  // Ids
  // ------------------------------------------------------------------

  /** A millisecond stamp and the entry's index. */
  function WidgetId(stamp: nat, index: nat): string {
    "cw-" + Decimal(stamp) + "-" + Decimal(index)
  }

  function AfterLastDash(s: string): string {
    if s == "" || s[|s| - 1] == '-' then "" else AfterLastDash(s[..|s| - 1]) + [s[|s| - 1]]
  }

  lemma {:induction false} DashBeforeDigits(s: string, digits: string)
    requires '-' !in digits
    ensures AfterLastDash(s + "-" + digits) == digits
  {
    if digits == "" {
      assert s + "-" + digits == s + "-";
    } else {
      var init := digits[..|digits| - 1];
      DashBeforeDigits(s, init);
      assert (s + "-" + digits)[..|s + "-" + digits| - 1] == s + "-" + init;
    }
  }

  /** Entries of one import never share an id, whatever the clock says. */
  lemma IdsDiffer(stamp: nat, index: nat, otherStamp: nat, other: nat)
    requires WidgetId(stamp, index) == WidgetId(otherStamp, other)
    ensures index == other
  {
    DashBeforeDigits("cw-" + Decimal(stamp), Decimal(index));
    DashBeforeDigits("cw-" + Decimal(otherStamp), Decimal(other));
    DecimalInjective(index, other);
  }

  // ------------------------------------------------------------------
  // The table
  // ------------------------------------------------------------------

  /** Bytes of a string in UTF-8. */
  function Utf8Length(s: string): nat {
    if s == "" then 0
    else
      Utf8Length(s[1..]) + (var c := s[0] as int; if c < 0x80 then 1 else if c < 0x800 then 2 else if c < 0x1_0000 then 3 else 4)
  }

  /** `validate_title`. */
  predicate TitleOk(title: string) {
    var trimmed := RemotePaths.Trim(title);
    trimmed != "" && Utf8Length(trimmed) <= 120
  }

  function Titles(rows: seq<Widget>): set<string> { set w | w in rows :: w.title }

  function Ids(rows: seq<Widget>): set<string> { set w | w in rows :: w.id }

  /** A row may be created: valid title and contents, and an id not yet used. */
  predicate Accepted(rows: seq<Widget>, id: string, title: string, e: Entry) {
    TitleOk(title) && e.wellFormed && id !in Ids(rows)
  }

  /** The rows that importing some entries adds, one per entry in order. */
  ghost predicate AddedRows(rows: seq<Widget>, entries: seq<Entry>, stamps: seq<nat>, added: seq<Widget>)
    requires |stamps| == |entries|
  {
    && |added| <= |entries|
    && forall i :: 0 <= i < |added| ==> AddedRow(rows, entries[i], WidgetId(stamps[i], i), added, i)
  }

  ghost predicate AddedRow(rows: seq<Widget>, e: Entry, id: string, added: seq<Widget>, i: nat)
    requires i < |added|
  {
    var so := rows + added[..i];
    && added[i].id == id && added[i].content == e.content
    && IsUniqueTitle(e.title, Titles(so), added[i].title)
    && Accepted(so, id, added[i].title, e)
  }

  /** The entry after those added cannot be created. */
  ghost predicate Stopped(rows: seq<Widget>, entries: seq<Entry>, stamps: seq<nat>, added: seq<Widget>)
    requires |stamps| == |entries|
  {
    var k := |added|;
    k < |entries| && exists title :: IsUniqueTitle(entries[k].title, Titles(rows + added), title) &&
                                     !Accepted(rows + added, WidgetId(stamps[k], k), title, entries[k])
  }

  predicate FileOk(file: WidgetFile) {
    file.format == WIDGET_EXPORT_FORMAT && file.version <= WIDGET_EXPORT_VERSION && file.widgets != []
  }

  class WidgetTable {
    var rows: seq<Widget>

    constructor (rows: seq<Widget>)
      ensures this.rows == rows
    {
      this.rows := rows;
    }

    method CreateCustomWidget(id: string, title: string, e: Entry) returns (r: Outcome<Widget>)
      modifies this
      ensures r == if Accepted(old(rows), id, title, e) then Done(Widget(id, title, e.content)) else Failed
      ensures rows == if r.Done? then old(rows) + [r.value] else old(rows)
    {
      if !TitleOk(title) || !e.wellFormed || id in Ids(rows) {
        return Failed;
      }
      rows := rows + [Widget(id, title, e.content)];
      return Done(Widget(id, title, e.content));
    }

    /** `import_dashboard_widgets_from_json` on a parsed file; the clock is read once per
        entry. Rows created before a failing entry stay. */
    method ImportWidgets(file: WidgetFile, stamps: seq<nat>) returns (r: Outcome<seq<Widget>>, ghost added: seq<Widget>)
      requires |stamps| == |file.widgets|
      modifies this
      ensures rows == old(rows) + added && AddedRows(old(rows), file.widgets, stamps, added)
      ensures r.Done? ==> FileOk(file) && |added| == |file.widgets| && r.value == added
      ensures r.Failed? ==> if FileOk(file) then Stopped(old(rows), file.widgets, stamps, added) else added == []
    {
      added := [];
      if file.format != WIDGET_EXPORT_FORMAT || file.version > WIDGET_EXPORT_VERSION || file.widgets == [] {
        return Failed, added;
      }
      ghost var before := rows;
      var taken := Titles(rows);
      var created: seq<Widget> := [];
      for index := 0 to |file.widgets|
        invariant created == added && |added| == index && rows == before + added && taken == Titles(rows)
        invariant AddedRows(before, file.widgets, stamps, added)
      {
        var e := file.widgets[index];
        var title := UniqueWidgetTitle(e.title, taken);
        var widget := CreateCustomWidget(WidgetId(stamps[index], index), title, e);
        if widget.Failed? {
          return Failed, added;
        }
        OneMoreRow(before, file.widgets, stamps, added, widget.value);
        taken := taken + {widget.value.title};
        created := created + [widget.value];
        added := created;
      }
      r := Done(created);
    }
  }

  lemma OneMoreRow(rows: seq<Widget>, entries: seq<Entry>, stamps: seq<nat>, added: seq<Widget>, w: Widget)
    requires |stamps| == |entries| && |added| < |entries| && AddedRows(rows, entries, stamps, added)
    requires
      var e, so := entries[|added|], rows + added;
      && w.id == WidgetId(stamps[|added|], |added|) && w.content == e.content
      && IsUniqueTitle(e.title, Titles(so), w.title) && Accepted(so, w.id, w.title, e)
    ensures AddedRows(rows, entries, stamps, added + [w])
    ensures rows + added + [w] == rows + (added + [w])
    ensures Titles(rows + (added + [w])) == Titles(rows + added) + {w.title}
  {
    var more := added + [w];
    forall i | 0 <= i < |more| ensures AddedRow(rows, entries[i], WidgetId(stamps[i], i), more, i) {
      if i < |added| {
        assert AddedRow(rows, entries[i], WidgetId(stamps[i], i), added, i);
        assert more[..i] == added[..i];
      } else {
        assert more[..i] == added;
      }
    }
    assert rows + more == rows + added + [w];
    var all := rows + more;
    forall t | t in Titles(rows + added) + {w.title} ensures t in Titles(all) {
      if t == w.title { assert all[|all| - 1] == w; }
    }
  }

  /** Whatever was imported, the new titles differ from each other and from all that were
      there, and so do the ids. */
  lemma AddedAreApart(rows: seq<Widget>, entries: seq<Entry>, stamps: seq<nat>, added: seq<Widget>)
    requires |stamps| == |entries| && AddedRows(rows, entries, stamps, added)
    ensures forall i :: 0 <= i < |added| ==> added[i].title !in Titles(rows) && added[i].id !in Ids(rows)
    ensures forall i, j :: 0 <= i < j < |added| ==> added[i].title != added[j].title && added[i].id != added[j].id
  {
    forall j | 0 <= j < |added| ensures added[j].title !in Titles(rows) && added[j].id !in Ids(rows)
    {
      assert AddedRow(rows, entries[j], WidgetId(stamps[j], j), added, j);
      assert forall w :: w in rows ==> w in rows + added[..j];
    }
    forall i, j | 0 <= i < j < |added| ensures added[i].title != added[j].title && added[i].id != added[j].id {
      assert AddedRow(rows, entries[j], WidgetId(stamps[j], j), added, j);
      assert added[..j][i] == added[i];
      assert added[i] in rows + added[..j];
    }
  }

  /** An import stops at an entry exactly when the entry is malformed, its id was in the
      table before the import, or the title chosen for it has no room: the import's own
      earlier rows never stop it. */
  lemma StoppedExactly(rows: seq<Widget>, entries: seq<Entry>, stamps: seq<nat>, added: seq<Widget>)
    requires |stamps| == |entries| && |added| < |entries| && AddedRows(rows, entries, stamps, added)
    ensures
      var k := |added|;
      Stopped(rows, entries, stamps, added) <==>
        !entries[k].wellFormed || WidgetId(stamps[k], k) in Ids(rows) ||
        !HasRoom(entries[k].title, Titles(rows + added))
  {
    var k := |added|;
    var id, base, taken := WidgetId(stamps[k], k), entries[k].title, Titles(rows + added);
    IdIsNotOwn(rows, entries, stamps, added);
    var chosen := UniqueTitleExists(base, taken);
    ChosenNeedsRoom(base, taken, chosen);
    forall title | IsUniqueTitle(base, taken, title) ensures title == chosen {
      UniqueTitleDetermined(base, taken, title, chosen);
    }
  }

  lemma IdIsNotOwn(rows: seq<Widget>, entries: seq<Entry>, stamps: seq<nat>, added: seq<Widget>)
    requires |stamps| == |entries| && |added| < |entries| && AddedRows(rows, entries, stamps, added)
    ensures
      var id := WidgetId(stamps[|added|], |added|);
      id in Ids(rows + added) <==> id in Ids(rows)
  {
    var k := |added|;
    var id := WidgetId(stamps[k], k);
    if id in Ids(rows + added) && id !in Ids(rows) {
      var w :| w in rows + added && w.id == id;
      assert w !in rows;
      var i :| 0 <= i < |added| && added[i] == w;
      assert AddedRow(rows, entries[i], WidgetId(stamps[i], i), added, i);
      IdsDiffer(stamps[i], i, stamps[k], k);
    }
    if id in Ids(rows) {
      var w :| w in rows && w.id == id;
      assert w in rows + added;
    }
  }

  lemma {:induction false} Utf8Joins(a: string, b: string)
    ensures Utf8Length(a + b) == Utf8Length(a) + Utf8Length(b)
  {
    if a == "" {
      assert a + b == b;
    } else {
      assert (a + b)[1..] == a[1..] + b;
      Utf8Joins(a[1..], b);
    }
  }

  lemma {:induction false} Utf8Plain(s: string)
    requires forall i :: 0 <= i < |s| ==> s[i] <= 'z'
    ensures Utf8Length(s) == |s|
  {
    if s != "" { Utf8Plain(s[1..]); }
  }

  lemma {:induction false} TrimStartJoins(a: string, b: string)
    requires RemotePaths.TrimStart(a) != ""
    ensures RemotePaths.TrimStart(a + b) == RemotePaths.TrimStart(a) + b
  {
    if RemotePaths.IsSpace(a[0]) {
      assert (a + b)[1..] == a[1..] + b;
      TrimStartJoins(a[1..], b);
    }
  }

  lemma {:induction false} TrimStartBlank(a: string, b: string)
    requires RemotePaths.TrimStart(a) == ""
    ensures RemotePaths.TrimStart(a + b) == RemotePaths.TrimStart(b)
  {
    if a == "" {
      assert a + b == b;
    } else {
      assert (a + b)[1..] == a[1..] + b;
      TrimStartBlank(a[1..], b);
    }
  }

  /** The bytes a title takes with a suffix that starts with its one space: a blank base
      gives the space up to trimming. */
  function SizeWith(base: string, extra: nat): nat
    requires extra > 0
  {
    var start := RemotePaths.TrimStart(base);
    if start == "" then extra - 1 else Utf8Length(start) + extra
  }

  lemma TitleWithSuffix(base: string, tail: string, title: string)
    requires title == base + (" " + tail)
    requires tail != "" && tail[|tail| - 1] == ')' && !RemotePaths.IsSpace(tail[0])
    requires forall i :: 0 <= i < |tail| ==> tail[i] <= 'z'
    ensures TitleOk(title) <==> SizeWith(base, |tail| + 1) <= 120
  {
    var start, suffix := RemotePaths.TrimStart(base), " " + tail;
    Utf8Plain(tail);
    Utf8Plain(suffix);
    if start == "" {
      TrimStartBlank(base, suffix);
      assert suffix[1..] == tail;
    } else {
      TrimStartJoins(base, suffix);
      Utf8Joins(start, suffix);
      var t := start + suffix;
      assert t[|t| - 1] == tail[|tail| - 1];
    }
  }

  lemma CountedTail(n: nat)
    ensures
      var tail := "(imported " + Decimal(n) + ")";
      && |tail| == 11 + |Decimal(n)| && tail[0] == '(' && tail[|tail| - 1] == ')'
      && forall i :: 0 <= i < |tail| ==> tail[i] <= 'z'
  {
    var tail, digits := "(imported " + Decimal(n) + ")", Decimal(n);
    forall i | 0 <= i < |tail| ensures tail[i] <= 'z' {
      if 10 <= i < 10 + |digits| { assert tail[i] == digits[i - 10] && digits[i - 10] in digits; }
    }
  }

  /** A taken title is valid under the plain suffix exactly when it leaves room for 11
      bytes more. */
  lemma SuffixNeedsRoom(base: string)
    ensures TitleOk(Suffixed(base)) <==> SizeWith(base, 11) <= 120
  {
    assert Suffixed(base) == base + (" " + "(imported)");
    TitleWithSuffix(base, "(imported)", Suffixed(base));
  }

  /** Under a counter it needs room for 12 and the counter's digits. */
  lemma CounterNeedsRoom(base: string, n: nat)
    ensures TitleOk(Counted(base, n)) <==> SizeWith(base, 12 + |Decimal(n)|) <= 120
  {
    var tail := "(imported " + Decimal(n) + ")";
    CountedTail(n);
    assert Counted(base, n) == base + (" " + tail);
    TitleWithSuffix(base, tail, Counted(base, n));
  }

  /** Room for the title that will be chosen: the entry's own if it is free, the plain
      suffix if only that is free, else the least free counter. */
  ghost predicate HasRoom(base: string, taken: set<string>) {
    if base !in taken then TitleOk(base)
    else if Suffixed(base) !in taken then SizeWith(base, 11) <= 120
    else exists n: nat :: 2 <= n && IsLeastFree(base, taken, n) && SizeWith(base, 12 + |Decimal(n)|) <= 120
  }

  lemma ChosenNeedsRoom(base: string, taken: set<string>, r: string)
    requires IsUniqueTitle(base, taken, r)
    ensures TitleOk(r) <==> HasRoom(base, taken)
  {
    if base in taken {
      SuffixNeedsRoom(base);
      if Suffixed(base) in taken {
        var n :| 2 <= n && IsLeastFree(base, taken, n) && r == Counted(base, n);
        CounterNeedsRoom(base, n);
        forall m: nat | 2 <= m && IsLeastFree(base, taken, m) ensures m == n {
          if m != n { NumberedHas(base, m, n); }
        }
      }
    }
  }
}
