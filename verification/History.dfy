/** The history of a seat count N, and N at an instant as the billing reads it from
    rows that a query orders by time and then by a random id. */
module History {
  import opened Basics

  /** One row of enterprise_seat_changes. */
  datatype SeatChange = SeatChange(at: int, from: nat, to: nat)

  // ------------------------------------------------------------ as committed

  /** The log in commit order: changes under one row lock, with a clock that does
      not go back, each from the count that the one before left, from 0. */
  ghost predicate Chain(log: seq<SeatChange>) {
    && (forall i {:trigger CountBefore(log, i)} :: 0 <= i < |log| ==> log[i].from == CountBefore(log, i))
    && (forall i :: 0 <= i < |log| ==> log[i].from != log[i].to)
    && (forall i, j :: 0 <= i <= j < |log| ==> log[i].at <= log[j].at)
  }

  function CountBefore(log: seq<SeatChange>, i: nat): nat
    requires i <= |log|
  {
    if i == 0 then 0 else log[i - 1].to
  }

  ghost predicate Rising(log: seq<SeatChange>) {
    forall i :: 0 <= i < |log| ==> log[i].from < log[i].to
  }

  /** N at `t`: what the last change at or before `t` left. */
  function CountAt(log: seq<SeatChange>, t: int): nat {
    if log == [] then 0
    else if log[|log| - 1].at <= t then log[|log| - 1].to
    else CountAt(log[..|log| - 1], t)
  }

  /** Changes committed by `t`, in order. */
  function UpTo(rows: seq<SeatChange>, t: int): seq<SeatChange> {
    if rows == [] then []
    else if rows[0].at <= t then [rows[0]] + UpTo(rows[1..], t)
    else UpTo(rows[1..], t)
  }

  // -------------------------------------------------------------- as queried

  /** The latest change time at or before `t`. */
  function LastAt(rows: seq<SeatChange>, t: int): (last: Option<int>)
    ensures last.Some? ==> last.value <= t && exists i :: 0 <= i < |rows| && rows[i].at == last.value
    ensures forall i :: 0 <= i < |rows| && rows[i].at <= t ==> last.Some? && rows[i].at <= last.value
  {
    if rows == [] then None
    else
      var last := LastAt(rows[..|rows| - 1], t);
      var c := rows[|rows| - 1];
      if c.at <= t && (last.None? || c.at > last.value) then Some(c.at) else last
  }

  function Tied(rows: seq<SeatChange>, at: int): seq<SeatChange> {
    if rows == [] then []
    else if rows[0].at == at then [rows[0]] + Tied(rows[1..], at)
    else Tied(rows[1..], at)
  }

  /** No other row starts from the count this one ends at. */
  predicate IsEnd(tied: seq<SeatChange>, i: nat)
    requires i < |tied|
  {
    forall j :: 0 <= j < |tied| && j != i ==> tied[j].from != tied[i].to
  }

  function EndsFrom(tied: seq<SeatChange>, i: nat): seq<SeatChange>
    requires i <= |tied|
    decreases |tied| - i
  {
    if i == |tied| then []
    else (if IsEnd(tied, i) then [tied[i]] else []) + EndsFrom(tied, i + 1)
  }

  function SeatsAt(rows: seq<SeatChange>, t: int): nat {
    match LastAt(rows, t)
    case None => 0
    case Some(last) =>
      var tied := Tied(rows, last);
      if tied == [] then 0
      else
        var ends := EndsFrom(tied, 0);
        if |ends| == 1 then ends[0].to else tied[|tied| - 1].to
  }

  lemma {:induction false} TiedMembers(rows: seq<SeatChange>, at: int)
    ensures forall c :: c in Tied(rows, at) <==> c in rows && c.at == at
  {
    if rows != [] {
      TiedMembers(rows[1..], at);
      assert rows == [rows[0]] + rows[1..];
    }
  }

  lemma {:induction false} EndsAreTied(tied: seq<SeatChange>, i: nat)
    requires i <= |tied|
    ensures forall c :: c in EndsFrom(tied, i) ==> c in tied
    decreases |tied| - i
  {
    if i < |tied| { EndsAreTied(tied, i + 1); }
  }

  /** The read is one of the counts that the rows set by then. */
  lemma SeatsAtIsOfARow(rows: seq<SeatChange>, t: int) returns (c: SeatChange)
    requires exists i :: 0 <= i < |rows| && rows[i].at <= t
    ensures c in rows && c.at <= t && SeatsAt(rows, t) == c.to
  {
    var last := LastAt(rows, t).value;
    var i :| 0 <= i < |rows| && rows[i].at == last;
    TiedMembers(rows, last);
    assert rows[i] in Tied(rows, last);
    var tied := Tied(rows, last);
    EndsAreTied(tied, 0);
    c := if |EndsFrom(tied, 0)| == 1 then EndsFrom(tied, 0)[0] else tied[|tied| - 1];
    assert c in tied;
  }

  /** The rows are the log's changes, each once, in some order. */
  ghost predicate RowsOf(log: seq<SeatChange>, rows: seq<SeatChange>) {
    multiset(rows) == multiset(log)
  }

  // ------------------------------------- when the rows tell N, whatever their order

  /** The index of the last change at or before `t`. */
  ghost predicate LastBy(log: seq<SeatChange>, t: int, n: nat) {
    n < |log| && log[n].at <= t && (n + 1 < |log| ==> log[n + 1].at > t)
  }

  /** The last count of that millisecond was not a count earlier in it. */
  ghost predicate Fresh(log: seq<SeatChange>, n: nat)
    requires n < |log|
  {
    forall j :: 0 <= j < n && log[j].at == log[n].at ==> log[j].from != log[n].to
  }

  lemma {:induction false} CountAtIs(log: seq<SeatChange>, t: int, n: nat)
    requires Chain(log) && LastBy(log, t, n)
    ensures CountAt(log, t) == log[n].to
    decreases |log|
  {
    if n < |log| - 1 {
      var front := log[..|log| - 1];
      assert Chain(front) by {
        assert forall i :: 0 <= i < |front| ==> CountBefore(front, i) == CountBefore(log, i);
      }
      CountAtIs(front, t, n);
    }
  }

  lemma {:induction false} TiedCounts(rows: seq<SeatChange>, at: int, c: SeatChange)
    ensures multiset(Tied(rows, at))[c] == if c.at == at then multiset(rows)[c] else 0
  {
    if rows != [] {
      assert rows == [rows[0]] + rows[1..];
      TiedCounts(rows[1..], at, c);
    }
  }

  lemma LaterIsAfter(log: seq<SeatChange>, t: int, n: nat)
    requires Chain(log) && LastBy(log, t, n)
    ensures forall m :: n < m < |log| ==> log[m].at > t
  {
    forall m | n < m < |log| ensures log[m].at > t { assert log[n + 1].at <= log[m].at; }
  }

  lemma LastAtIs(log: seq<SeatChange>, rows: seq<SeatChange>, t: int, n: nat)
    requires Chain(log) && LastBy(log, t, n) && RowsOf(log, rows)
    ensures LastAt(rows, t) == Some(log[n].at)
  {
    assert log[n] in multiset(log) && log[n] in rows;
    var last := LastAt(rows, t);
    var i :| 0 <= i < |rows| && rows[i].at == last.value;
    assert rows[i] in multiset(rows) && rows[i] in log;
    var j :| 0 <= j < |log| && log[j] == rows[i];
    LaterIsAfter(log, t, n);
  }

  lemma {:induction false} NoEndNoEnds(tied: seq<SeatChange>, i: nat)
    requires i <= |tied|
    requires forall j :: i <= j < |tied| ==> !IsEnd(tied, j)
    ensures EndsFrom(tied, i) == []
    decreases |tied| - i
  {
    hide IsEnd;
    if i < |tied| { NoEndNoEnds(tied, i + 1); }
  }

  lemma {:induction false} OneEnd(tied: seq<SeatChange>, e: nat, i: nat)
    requires i <= e < |tied|
    requires forall j :: 0 <= j < |tied| ==> (IsEnd(tied, j) <==> j == e)
    ensures EndsFrom(tied, i) == [tied[e]]
    decreases |tied| - i
  {
    hide IsEnd;
    if i < e { OneEnd(tied, e, i + 1); } else { NoEndNoEnds(tied, i + 1); }
  }

  /** A row of the millisecond that is not the last change is followed by another
      row, of another value, that starts where it ended. */
  lemma NotLastIsNoEnd(log: seq<SeatChange>, tied: seq<SeatChange>, n: nat, j: nat, i: nat)
    requires Chain(log) && j < n < |log| && log[j].at == log[n].at
    requires i < |tied| && tied[i] == log[j]
    requires multiset(tied) == multiset(Tied(log, log[n].at))
    ensures !IsEnd(tied, i)
  {
    var next := log[j + 1];
    assert next.from == CountBefore(log, j + 1);
    assert log[j].at <= next.at <= log[n].at;
    assert next.at == log[n].at && next.from == log[j].to && next != log[j];
    TiedCounts(log, log[n].at, next);
    assert next in multiset(log);
    assert next in multiset(tied);
    var k :| 0 <= k < |tied| && tied[k] == next;
  }

  lemma TiedOfRows(log: seq<SeatChange>, rows: seq<SeatChange>, at: int)
    requires RowsOf(log, rows)
    ensures multiset(Tied(rows, at)) == multiset(Tied(log, at))
  {
    forall c ensures multiset(Tied(rows, at))[c] == multiset(Tied(log, at))[c] {
      TiedCounts(rows, at, c);
      TiedCounts(log, at, c);
    }
  }

  lemma InTied(log: seq<SeatChange>, at: int, c: SeatChange)
    requires c in multiset(Tied(log, at))
    ensures c.at == at && c in log
  {
    TiedCounts(log, at, c);
    assert c in multiset(log);
  }

  /** Only the last change of the millisecond can be an end. */
  lemma EndIsLast(log: seq<SeatChange>, tied: seq<SeatChange>, n: nat, t: int, i: nat)
    requires Chain(log) && LastBy(log, t, n)
    requires multiset(tied) == multiset(Tied(log, log[n].at))
    requires i < |tied| && IsEnd(tied, i)
    ensures tied[i] == log[n]
  {
    assert tied[i] in multiset(tied);
    InTied(log, log[n].at, tied[i]);
    var j :| 0 <= j < |log| && log[j] == tied[i];
    LaterIsAfter(log, t, n);
    if j < n { NotLastIsNoEnd(log, tied, n, j, i); }
  }

  /** N is read right from the rows in every order they can come in, exactly when
      the millisecond of the last change did not return to its last count. */
  lemma SeatsAtIsCount(log: seq<SeatChange>, rows: seq<SeatChange>, t: int, n: nat)
    requires Chain(log) && LastBy(log, t, n) && RowsOf(log, rows)
    requires Fresh(log, n)
    ensures SeatsAt(rows, t) == CountAt(log, t)
  {
    CountAtIs(log, t, n);
    LastAtIs(log, rows, t, n);
    var at := log[n].at;
    var tied := Tied(rows, at);
    TiedOfRows(log, rows, at);
    TiedCounts(log, at, log[n]);
    assert log[n] in multiset(log);
    assert log[n] in multiset(tied);
    var e :| 0 <= e < |tied| && tied[e] == log[n];
    forall j | 0 <= j < |tied| && j != e ensures tied[j].from != tied[e].to {
      FreshHasNoFollower(log, tied, n, t, j);
    }
    forall j | 0 <= j < |tied| ensures IsEnd(tied, j) <==> j == e {
      if IsEnd(tied, j) && j != e {
        EndIsLast(log, tied, n, t, j);
        TwiceIsNotFresh(log, tied, n, t, j, e);
      }
    }
    OneEnd(tied, e, 0);
  }

  lemma FreshHasNoFollower(log: seq<SeatChange>, tied: seq<SeatChange>, n: nat, t: int, j: nat)
    requires Chain(log) && LastBy(log, t, n) && Fresh(log, n)
    requires multiset(tied) == multiset(Tied(log, log[n].at))
    requires j < |tied|
    ensures tied[j].from != log[n].to
  {
    assert tied[j] in multiset(tied);
    InTied(log, log[n].at, tied[j]);
    var m :| 0 <= m < |log| && log[m] == tied[j];
    LaterIsAfter(log, t, n);
  }

  lemma TwiceIsNotFresh(log: seq<SeatChange>, tied: seq<SeatChange>, n: nat, t: int, i: nat, j: nat)
    requires Chain(log) && LastBy(log, t, n)
    requires multiset(tied) == multiset(Tied(log, log[n].at))
    requires i < |tied| && j < |tied| && i != j && tied[i] == tied[j] == log[n]
    ensures !Fresh(log, n)
  {
    assert multiset(tied)[log[n]] >= 2 by { TwoOfIt(tied, i, j); }
    TiedCounts(log, log[n].at, log[n]);
    var m := OtherIndex(log, n);
    LaterIsAfter(log, t, n);
    assert log[m + 1].from == CountBefore(log, m + 1) == log[n].to;
    assert log[m].at <= log[m + 1].at <= log[n].at;
  }

  lemma TwoOfIt<T>(s: seq<T>, i: nat, j: nat)
    requires i < |s| && j < |s| && i != j && s[i] == s[j]
    ensures multiset(s)[s[i]] >= 2
  {
    var a, b := if i < j then i else j, if i < j then j else i;
    assert s == s[..a] + [s[a]] + s[a + 1..b] + [s[b]] + s[b + 1..];
  }

  lemma OtherIndex<T>(s: seq<T>, n: nat) returns (m: nat)
    requires n < |s| && multiset(s)[s[n]] >= 2
    ensures m < |s| && m != n && s[m] == s[n]
  {
    assert s == s[..n] + [s[n]] + s[n + 1..];
    assert multiset(s) == multiset(s[..n]) + multiset{s[n]} + multiset(s[n + 1..]);
    if s[n] in s[..n] {
      m :| 0 <= m < n && s[m] == s[n];
    } else {
      assert multiset(s[..n])[s[n]] == 0;
      assert s[n] in multiset(s[n + 1..]);
      var k :| 0 <= k < |s[n + 1..]| && s[n + 1..][k] == s[n];
      m := n + 1 + k;
    }
  }

  lemma ReturnedHasNoEnd(log: seq<SeatChange>, tied: seq<SeatChange>, n: nat, t: int, i: nat)
    requires Chain(log) && LastBy(log, t, n) && !Fresh(log, n)
    requires multiset(tied) == multiset(Tied(log, log[n].at))
    requires i < |tied|
    ensures !IsEnd(tied, i)
  {
    assert tied[i] in multiset(tied);
    InTied(log, log[n].at, tied[i]);
    LaterIsAfter(log, t, n);
    var m :| 0 <= m < |log| && log[m] == tied[i];
    if m < n {
      NotLastIsNoEnd(log, tied, n, m, i);
    } else {
      var k :| 0 <= k < n && log[k].at == log[n].at && log[k].from == log[n].to;
      TiedCounts(log, log[n].at, log[k]);
      assert log[k] in multiset(log);
      assert log[k] in multiset(tied);
      var j :| 0 <= j < |tied| && tied[j] == log[k];
    }
  }

  /** When the millisecond did return to its last count, no row is an end, and some
      order of the rows reads a wrong N. */
  lemma ReturnedCountMisreads(log: seq<SeatChange>, t: int, n: nat) returns (rows: seq<SeatChange>)
    requires Chain(log) && LastBy(log, t, n)
    requires !Fresh(log, n)
    ensures RowsOf(log, rows) && SeatsAt(rows, t) != CountAt(log, t)
  {
    rows := SwappedRows(log, t, n);
    ReturnedHasNoEnds(log, rows, t, n);
    LastAtIs(log, rows, t, n);
    CountAtIs(log, t, n);
    assert log[n].from == CountBefore(log, n) == log[n - 1].to;
  }

  lemma ReturnedHasNoEnds(log: seq<SeatChange>, rows: seq<SeatChange>, t: int, n: nat)
    requires Chain(log) && LastBy(log, t, n) && !Fresh(log, n) && RowsOf(log, rows)
    ensures EndsFrom(Tied(rows, log[n].at), 0) == []
  {
    var tied := Tied(rows, log[n].at);
    TiedOfRows(log, rows, log[n].at);
    forall i | 0 <= i < |tied| ensures !IsEnd(tied, i) { ReturnedHasNoEnd(log, tied, n, t, i); }
    NoEndNoEnds(tied, 0);
  }

  /** The log with its last two changes by `t` in the other order. */
  lemma SwappedRows(log: seq<SeatChange>, t: int, n: nat) returns (rows: seq<SeatChange>)
    requires Chain(log) && LastBy(log, t, n) && !Fresh(log, n)
    ensures RowsOf(log, rows) && n > 0
    ensures var tied := Tied(rows, log[n].at); tied != [] && tied[|tied| - 1] == log[n - 1]
  {
    var k :| 0 <= k < n && log[k].at == log[n].at;
    assert log[k].at <= log[n - 1].at <= log[n].at;
    rows := SwapLast(log, n);
    LaterIsAfter(log, t, n);
    LastTied(log[..n - 1] + [log[n]], log[n - 1], log[n + 1..], log[n].at);
  }

  lemma SwapLast(log: seq<SeatChange>, n: nat) returns (rows: seq<SeatChange>)
    requires 0 < n < |log|
    ensures rows == (log[..n - 1] + [log[n]]) + [log[n - 1]] + log[n + 1..]
    ensures RowsOf(log, rows)
  {
    rows := (log[..n - 1] + [log[n]]) + [log[n - 1]] + log[n + 1..];
    assert log == log[..n - 1] + [log[n - 1]] + [log[n]] + log[n + 1..];
  }

  lemma {:induction false} LastTied(before: seq<SeatChange>, c: SeatChange, after: seq<SeatChange>, at: int)
    requires c.at == at && forall i :: 0 <= i < |after| ==> after[i].at != at
    ensures var tied := Tied(before + [c] + after, at); tied != [] && tied[|tied| - 1] == c
  {
    var rows := before + [c] + after;
    if before == [] {
      assert rows[1..] == after;
      NoneTied(after, at);
    } else {
      assert rows[1..] == before[1..] + [c] + after;
      LastTied(before[1..], c, after, at);
    }
  }

  lemma {:induction false} NoneTied(rows: seq<SeatChange>, at: int)
    requires forall i :: 0 <= i < |rows| ==> rows[i].at != at
    ensures Tied(rows, at) == []
  {
    if rows != [] { NoneTied(rows[1..], at); }
  }

  // ------------------------------------------------------------- rising histories

  lemma {:induction false} RisingIsMonotone(log: seq<SeatChange>, i: nat, j: nat)
    requires Chain(log) && Rising(log) && i <= j < |log|
    ensures log[i].from < log[j].to
    decreases j - i
  {
    assert log[j].from < log[j].to;
    if i < j {
      RisingIsMonotone(log, i, j - 1);
      assert log[j].from == CountBefore(log, j);
    }
  }

  function LastIndex(log: seq<SeatChange>, t: int): (n: int)
    requires Chain(log)
    ensures -1 <= n < |log|
    ensures n == -1 <==> forall i :: 0 <= i < |log| ==> log[i].at > t
    ensures n >= 0 ==> LastBy(log, t, n)
  {
    if log == [] then -1
    else if log[|log| - 1].at <= t then |log| - 1
    else
      assert Chain(log[..|log| - 1]) by { PrefixChain(log, |log| - 1); }
      LastIndex(log[..|log| - 1], t)
  }

  /** A history grows by a change that starts from its last count. */
  lemma ChainGrows(log: seq<SeatChange>, c: SeatChange)
    requires Chain(log) && c.from == CountBefore(log, |log|) && c.from != c.to
    requires log != [] ==> log[|log| - 1].at <= c.at
    ensures Chain(log + [c])
    ensures Rising(log) && c.from < c.to ==> Rising(log + [c])
  {
    var next := log + [c];
    forall i {:trigger CountBefore(next, i)} | 0 <= i < |next| ensures next[i].from == CountBefore(next, i) {
      assert CountBefore(next, i) == CountBefore(log, i);
    }
    forall i, j | 0 <= i <= j < |next| ensures next[i].at <= next[j].at {
      if i < |log| && j == |log| { assert log[i].at <= log[|log| - 1].at; }
    }
  }

  lemma PrefixChain(log: seq<SeatChange>, n: nat)
    requires Chain(log) && n <= |log|
    ensures Chain(log[..n]) && (Rising(log) ==> Rising(log[..n]))
  {
    assert forall i :: 0 <= i < n ==> CountBefore(log[..n], i) == CountBefore(log, i);
  }

  /** A rising history is read right at every instant, in every order of its rows. */
  lemma RisingRowsTellN(log: seq<SeatChange>, rows: seq<SeatChange>, t: int)
    requires Chain(log) && Rising(log) && RowsOf(log, rows)
    ensures SeatsAt(rows, t) == CountAt(log, t)
  {
    var n := LastIndex(log, t);
    if n >= 0 {
      forall j | 0 <= j < n && log[j].at == log[n].at ensures log[j].from != log[n].to {
        RisingIsMonotone(log, j, n);
      }
      SeatsAtIsCount(log, rows, t, n);
    } else {
      NothingYet(log, t);
      forall i | 0 <= i < |rows| ensures rows[i].at > t {
        assert rows[i] in multiset(rows) && rows[i] in log;
      }
      assert LastAt(rows, t) == None;
    }
  }

  lemma {:induction false} NothingYet(log: seq<SeatChange>, t: int)
    requires forall i :: 0 <= i < |log| ==> log[i].at > t
    ensures CountAt(log, t) == 0
  {
    if log != [] { NothingYet(log[..|log| - 1], t); }
  }
}
