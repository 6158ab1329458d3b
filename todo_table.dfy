/**
 * The column sorters of src/components/TodoList/TodoTable.tsx. Each is a
 * comparison function in the table library's convention: negative puts `a`
 * first, positive puts `b` first, zero leaves them tied.
 */
module TodoTable {
  import opened Wrappers
  import opened TodosSlice

  datatype RowAction = Edit | Delete

  /** A table row (`interface DataType`); the due date is the formatted text shown. */
  datatype Row = Row(
    key: Option<string>,
    name: string,
    priority: Priority,
    dueDate: string,
    actions: RowAction)

  /**
   * JavaScript's `length` of a string: its number of UTF-16 code units, so
   * a character outside the Basic Multilingual Plane counts twice.
   */
  function Utf16Length(s: string): (n: nat)
    ensures |s| <= n <= 2 * |s|
  {
    if s == [] then 0 else (if s[0] > '\U{FFFF}' then 2 else 1) + Utf16Length(s[1..])
  }

  /** For text inside the Basic Multilingual Plane the two lengths agree. */
  lemma {:induction false} Utf16LengthOfBmp(s: string)
    requires forall i :: 0 <= i < |s| ==> s[i] <= '\U{FFFF}'
    ensures Utf16Length(s) == |s|
  {
    if s != [] {
      Utf16LengthOfBmp(s[1..]);
    }
  }

  /** Name column: orders rows by the length of their names. */
  function NameSorter(a: Row, b: Row): (r: int)
    ensures r < 0 <==> Utf16Length(a.name) < Utf16Length(b.name)
    ensures r == 0 <==> Utf16Length(a.name) == Utf16Length(b.name)
  {
    Utf16Length(a.name) - Utf16Length(b.name)
  }

  /** The rank of a priority: low = 1, medium = 2, high = 3. */
  function PriorityValue(p: Priority): (v: int)
    ensures 1 <= v <= 3
  {
    if p == Low then 1 else if p == Medium then 2 else 3
  }

  /** `p` is strictly more urgent than `q`. */
  predicate MoreUrgent(p: Priority, q: Priority) {
    (p == High && q != High) || (p == Medium && q == Low)
  }

  /** Priority column: more urgent rows first, ties for equal priorities. */
  function PrioritySorter(a: Row, b: Row): (r: int)
    ensures r == -1 || r == 0 || r == 1
    ensures r == 0 <==> a.priority == b.priority
    ensures r == -1 <==> MoreUrgent(a.priority, b.priority)
    ensures r == 1 <==> MoreUrgent(b.priority, a.priority)
  {
    var valA := PriorityValue(a.priority);
    var valB := PriorityValue(b.priority);
    if valA == valB then 0
    else if valA < valB then 1 else -1
  }

  /** Due-date column: orders rows by the length of the date text, not by the date. */
  function DueDateSorter(a: Row, b: Row): (r: int)
    ensures r < 0 <==> Utf16Length(a.dueDate) < Utf16Length(b.dueDate)
    ensures r == 0 <==> Utf16Length(a.dueDate) == Utf16Length(b.dueDate)
  {
    Utf16Length(a.dueDate) - Utf16Length(b.dueDate)
  }

  /** The ranking is one-to-one and follows urgency. */
  lemma PriorityValueRanks(p: Priority, q: Priority)
    ensures PriorityValue(p) == PriorityValue(q) <==> p == q
    ensures PriorityValue(p) > PriorityValue(q) <==> MoreUrgent(p, q)
    ensures PriorityValue(Low) == 1 && PriorityValue(Medium) == 2 && PriorityValue(High) == 3
  {
  }

  /** Swapping the rows flips the sign of every sorter. */
  lemma SortersAntisymmetric(a: Row, b: Row)
    ensures PrioritySorter(a, b) == -PrioritySorter(b, a)
    ensures NameSorter(a, b) == -NameSorter(b, a)
    ensures DueDateSorter(a, b) == -DueDateSorter(b, a)
  {
  }

  /** "Not after" is transitive for every sorter, so each is a total preorder. */
  lemma SortersTransitive(a: Row, b: Row, c: Row)
    ensures PrioritySorter(a, b) <= 0 && PrioritySorter(b, c) <= 0 ==> PrioritySorter(a, c) <= 0
    ensures NameSorter(a, b) <= 0 && NameSorter(b, c) <= 0 ==> NameSorter(a, c) <= 0
    ensures DueDateSorter(a, b) <= 0 && DueDateSorter(b, c) <= 0 ==> DueDateSorter(a, c) <= 0
    ensures PrioritySorter(a, b) <= 0 || PrioritySorter(b, a) <= 0
  {
  }

  /** A high-priority row sorts before a low-priority one. */
  lemma HighBeforeLow(a: Row, b: Row)
    requires a.priority == High && b.priority == Low
    ensures PrioritySorter(a, b) == -1 && PrioritySorter(b, a) == 1
  {
  }

  /** Only lengths matter: rows whose texts differ but have equal lengths tie. */
  lemma SortersSeeOnlyLengths(a: Row, b: Row, a': Row, b': Row)
    requires Utf16Length(a.name) == Utf16Length(a'.name) && Utf16Length(b.name) == Utf16Length(b'.name)
    requires Utf16Length(a.dueDate) == Utf16Length(a'.dueDate) && Utf16Length(b.dueDate) == Utf16Length(b'.dueDate)
    ensures NameSorter(a, b) == NameSorter(a', b')
    ensures DueDateSorter(a, b) == DueDateSorter(a', b')
  {
  }

  /**
   * Witnesses of `SortersSeeOnlyLengths`, on rows 1 and 3 of the table's
   * sample data: different names of equal length tie in the name column,
   * and different dates of equal length tie in the due-date column.
   */
  lemma EqualLengthNamesTie(a: Row, b: Row)
    requires a == Row(Some("1"), "Julio Brown", High, "2023-08-02", Edit)
    requires b == Row(Some("3"), "Mario Brown", Medium, "2023-08-04", Edit)
    ensures NameSorter(a, b) == 0 && a.name != b.name
  {
    assert Utf16Length(a.name) == 11;
    assert Utf16Length(b.name) == 11;
  }

  lemma EqualLengthDatesTie(a: Row, b: Row)
    requires a == Row(Some("1"), "Julio Brown", High, "2023-08-02", Edit)
    requires b == Row(Some("3"), "Mario Brown", Medium, "2023-08-04", Edit)
    ensures DueDateSorter(a, b) == 0 && a.dueDate != b.dueDate
  {
    assert Utf16Length(a.dueDate) == 10;
    assert Utf16Length(b.dueDate) == 10;
  }

  /** A character outside the Basic Multilingual Plane has length 2, like two ASCII letters. */
  lemma AstralCharacterCountsTwice()
    ensures NameSorter(Row(None, "\U{1F600}", High, "", Edit), Row(None, "ab", High, "", Edit)) == 0
  {
    assert Utf16Length("\U{1F600}") == 2;
    assert Utf16Length("ab") == 2 by {
      assert "ab"[1..] == "b";
      assert "b"[1..] == "";
    }
  }

  /** Rows listed in priority-sorter order have non-increasing ranks. */
  predicate SortedByPriority(rows: seq<Row>) {
    forall i :: 0 <= i < |rows| - 1 ==> PrioritySorter(rows[i], rows[i + 1]) <= 0
  }

  lemma {:induction false} SortedByPriorityRanksDescend(rows: seq<Row>, i: int, j: int)
    requires SortedByPriority(rows)
    requires 0 <= i <= j < |rows|
    ensures PriorityValue(rows[i].priority) >= PriorityValue(rows[j].priority)
    decreases j - i
  {
    if i < j {
      SortedByPriorityRanksDescend(rows, i + 1, j);
      assert PrioritySorter(rows[i], rows[i + 1]) <= 0;
    }
  }
}
