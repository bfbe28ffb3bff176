/** What the strategies share: masks written into a target in place, and the frame built from it. */
module SignalFrame {
  import opened Prelude
  import opened Series
  import opened Simulation

  /** target[mask] = value, in place. */
  method AssignWhere<T>(target: array<Option<T>>, mask: seq<bool>, value: T)
    requires |mask| == target.Length
    modifies target
    ensures target[..] == Assign(old(target[..]), mask, value)
  {
    for i := 0 to target.Length
      invariant forall k :: 0 <= k < i ==> target[k] == if mask[k] then Some(value) else old(target[k])
      invariant forall k :: i <= k < target.Length ==> target[k] == old(target[k])
    {
      if mask[i] {
        target[i] := Some(value);
      }
    }
  }

  /** Missing reasons are empty strings. */
  function Text(c: seq<Option<string>>): (r: seq<string>)
    ensures |r| == |c|
  {
    seq(|c|, i requires 0 <= i < |c| => if c[i].Some? then c[i].value else "")
  }

  function Conviction(direction: SignalDirection): real {
    if direction != FLAT then 1.0 else 0.0
  }

  /** direction, binary conviction and reason, one row per bar. */
  function Rows(directions: seq<SignalDirection>, reasons: seq<string>): (r: seq<SignalRow>)
    requires |directions| == |reasons|
    ensures |r| == |directions|
  {
    seq(|directions|, i requires 0 <= i < |directions| =>
      SignalRow(directions[i], Conviction(directions[i]), reasons[i]))
  }

  /** The direction changed on this row (the first row always counts as a change). */
  function Changed(directions: seq<SignalDirection>): (r: seq<bool>)
    ensures |r| == |directions|
  {
    seq(|directions|, i requires 0 <= i < |directions| => i == 0 || directions[i] != directions[i - 1])
  }

  function And(a: seq<bool>, b: seq<bool>): (r: seq<bool>)
    requires |a| == |b|
    ensures |r| == |a|
  {
    seq(|a|, i requires 0 <= i < |a| => a[i] && b[i])
  }

  /** One named column entering the indicator rows; missing values are left out. */
  function WithColumn(rows: seq<Indicators>, name: string, c: Column): (r: seq<Indicators>)
    requires |rows| == |c|
    ensures |r| == |rows|
  {
    seq(|rows|, i requires 0 <= i < |rows| => if c[i].Some? then rows[i][name := c[i].value] else rows[i])
  }

  /** The cell of a row under a name is x: there is none when x is missing. */
  predicate CellIs(cells: Indicators, name: string, x: Option<real>) {
    (name in cells <==> x.Some?) && (x.Some? ==> cells[name] == x.value)
  }

  /** A new column adds its own cells and leaves the others alone. */
  lemma ColumnAdds(rows: seq<Indicators>, name: string, c: Column, t: nat)
    requires t < |rows| == |c| && name !in rows[t]
    ensures var cells := WithColumn(rows, name, c)[t];
            && CellIs(cells, name, c[t])
            && forall other: string :: other != name ==>
                 (other in cells <==> other in rows[t]) && (other in cells ==> cells[other] == rows[t][other])
  {
  }

  function NoColumns(n: nat): (r: seq<Indicators>)
    ensures |r| == n
  {
    seq(n, _ => map[])
  }

  /** The first k rows of a signal set. */
  function FirstRows(s: SignalSet, k: nat): SignalSet
    requires k <= |s.rows| == |s.indicators|
  {
    SignalSet(s.rows[..k], s.indicators[..k])
  }

  lemma BlankPrefix<T>(n: nat, k: nat)
    requires k <= n
    ensures Blank<T>(n)[..k] == Blank<T>(k)
  {
  }

  lemma RowsPrefix(directions: seq<SignalDirection>, reasons: seq<string>, k: nat)
    requires k <= |directions| == |reasons|
    ensures Rows(directions, reasons)[..k] == Rows(directions[..k], reasons[..k])
  {
  }

  lemma TextPrefix(c: seq<Option<string>>, k: nat)
    requires k <= |c|
    ensures Text(c)[..k] == Text(c[..k])
  {
  }

  lemma ChangedPrefix(directions: seq<SignalDirection>, k: nat)
    requires k <= |directions|
    ensures Changed(directions)[..k] == Changed(directions[..k])
  {
  }

  lemma AndPrefix(a: seq<bool>, b: seq<bool>, k: nat)
    requires k <= |a| == |b|
    ensures And(a, b)[..k] == And(a[..k], b[..k])
  {
  }

  lemma WithColumnPrefix(rows: seq<Indicators>, name: string, c: Column, k: nat)
    requires k <= |rows| == |c|
    ensures WithColumn(rows, name, c)[..k] == WithColumn(rows[..k], name, c[..k])
  {
  }

  lemma NoColumnsPrefix(n: nat, k: nat)
    requires k <= n
    ensures NoColumns(n)[..k] == NoColumns(k)
  {
  }

  /** Two masks written in order over a blank target: the later one wins. */
  function TwoMasks<T>(first: seq<bool>, a: T, second: seq<bool>, b: T): (r: seq<Option<T>>)
    requires |first| == |second|
    ensures |r| == |first|
  {
    Assign(Assign(Blank(|first|), first, a), second, b)
  }

  lemma TwoMasksPrefix<T>(first: seq<bool>, a: T, second: seq<bool>, b: T, k: nat)
    requires k <= |first| == |second|
    ensures TwoMasks(first, a, second, b)[..k] == TwoMasks(first[..k], a, second[..k], b)
  {
    BlankPrefix<T>(|first|, k);
    AssignPrefix(Blank(|first|), first, a, k);
    AssignPrefix(Assign(Blank(|first|), first, a), second, b, k);
  }

  /** The state machine that forward-filled masks amount to. */
  lemma TwoMasksStep<T>(first: seq<bool>, a: T, second: seq<bool>, b: T, default: T, t: nat)
    requires t < |first| == |second|
    ensures ForwardFill(TwoMasks(first, a, second, b), default)[t] ==
            if second[t] then b else if first[t] then a
            else if t == 0 then default else ForwardFill(TwoMasks(first, a, second, b), default)[t - 1]
  {
    ForwardFillSteps(TwoMasks(first, a, second, b), default, t);
  }

  /** Four masks in order, later ones winning. */
  function FourMasks<T>(up: seq<bool>, a: T, down: seq<bool>, b: T, below: seq<bool>, c: T, above: seq<bool>, d: T): (r: seq<Option<T>>)
    requires |up| == |down| == |below| == |above|
    ensures |r| == |up|
  {
    Assign(Assign(TwoMasks(up, a, down, b), below, c), above, d)
  }

  lemma FourMasksPrefix<T>(up: seq<bool>, a: T, down: seq<bool>, b: T, below: seq<bool>, c: T, above: seq<bool>, d: T, k: nat)
    requires k <= |up| == |down| == |below| == |above|
    ensures FourMasks(up, a, down, b, below, c, above, d)[..k] ==
            FourMasks(up[..k], a, down[..k], b, below[..k], c, above[..k], d)
  {
    TwoMasksPrefix(up, a, down, b, k);
    AssignPrefix(TwoMasks(up, a, down, b), below, c, k);
    AssignPrefix(Assign(TwoMasks(up, a, down, b), below, c), above, d, k);
    hide TwoMasks, Assign;
  }
}
