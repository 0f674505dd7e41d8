/** The reading-progress widget: the `progress` state it keeps, the scroll
    listener it registers on the window while mounted, and the accessible
    progress bar it renders. The host supplies the viewport metrics as a
    `Metrics` value at each call. */
module ReadingProgressWidget {
  import opened ScrollMath
  import opened Decimal

  /** What the widget renders: a `progressbar` element with its accessible
      label and numeric attributes, and the CSS height of its inner fill. */
  datatype ProgressBar = ProgressBar(
    role: string,
    ariaLabel: string,
    valueMin: int,
    valueMax: int,
    valueNow: int,
    fillHeight: string)

  class ReadingProgress {
    /** The fraction last passed to `setProgress`. */
    var progress: real
    /** How many of this widget's scroll listeners the window holds. */
    var listeners: nat

    ghost predicate Valid()
      reads this
    {
      0.0 <= progress <= 1.0 && listeners <= 1
    }

    /** First render: `progress` starts at 0 and nothing listens yet. */
    constructor ()
      ensures Valid()
      ensures progress == 0.0 && listeners == 0
    {
      progress := 0.0;
      listeners := 0;
    }

    /** The `onScroll` handler: recompute the fraction from the current
        metrics and store it. */
    method HandleScroll(m: Metrics)
      requires Valid()
      modifies this`progress
      ensures Valid()
      ensures progress == Fraction(m)
    {
      progress := Fraction(m);
    }

    /** The mount effect: run the handler once with the metrics at mount, so
        that an already scrolled page shows its position at once, then
        register the handler as the one scroll listener. The effect has no
        dependencies, so it runs only while no listener of this widget is
        registered. */
    method Mount(m: Metrics)
      requires Valid() && listeners == 0
      modifies this
      ensures Valid()
      ensures progress == Fraction(m) && listeners == 1
    {
      HandleScroll(m);
      listeners := listeners + 1;
    }

    /** The window delivers a scroll event: a registered handler replaces
        `progress` with the recomputed fraction; with no listener registered
        nothing changes. */
    method DispatchScroll(m: Metrics)
      requires Valid()
      modifies this`progress
      ensures Valid()
      ensures progress == if listeners > 0 then Fraction(m) else old(progress)
    {
      if listeners > 0 {
        HandleScroll(m);
      }
    }

    /** The effect's cleanup: remove the listener; `progress` is left as it
        was. Removing a listener the window does not hold changes nothing. */
    method Unmount()
      requires Valid()
      modifies this`listeners
      ensures Valid()
      ensures listeners == 0
    {
      listeners := if listeners > 0 then listeners - 1 else 0;
    }

    /** `Math.round(progress * 100)`, which the kept invariant puts in [0, 100]. */
    function PercentNow(): (p: int)
      reads this
      requires Valid()
      ensures 0 <= p <= 100
      ensures progress * 100.0 - 0.5 < p as real <= progress * 100.0 + 0.5
    {
      Percent(progress)
    }

    /** The rendered indicator: role `progressbar`, label "Reading progress",
        range 0 to 100 with the current percent inside it, and a fill whose
        height is that percent followed by `%`. */
    function Render(): (bar: ProgressBar)
      reads this
      requires Valid()
      ensures bar.role == "progressbar" && bar.ariaLabel == "Reading progress"
      ensures bar.valueMin == 0 && bar.valueMax == 100
      ensures bar.valueMin <= bar.valueNow <= bar.valueMax
      ensures bar.valueNow == Percent(progress)
      ensures bar.fillHeight == DecimalString(bar.valueNow) + "%"
      ensures 2 <= |bar.fillHeight| && bar.fillHeight[|bar.fillHeight| - 1] == '%'
      ensures forall i :: 0 <= i < |bar.fillHeight| - 1 ==> IsDigit(bar.fillHeight[i])
      ensures ParseDecimal(bar.fillHeight[..|bar.fillHeight| - 1]) == bar.valueNow
    {
      var percent := PercentNow();
      var digits := DecimalString(percent);
      ParseDecimalString(percent);
      ProgressBar("progressbar", "Reading progress", 0, 100, percent, digits + "%")
    }
  }

  /** A 2000-high page in a 1000-high window: mounted at the top the bar
      reads 0, a scroll to 500 makes it 50, unmounting leaves no listener,
      and a later scroll no longer moves it. */
  method MountScrollUnmount() returns (atMount: int, afterScroll: int, left: nat, afterTeardown: int)
    ensures atMount == 0 && afterScroll == 50
    ensures left == 0 && afterTeardown == 50
  {
    var w := new ReadingProgress();
    w.Mount(Metrics(2000.0, 1000.0, 0.0));
    atMount := w.PercentNow();
    w.DispatchScroll(Metrics(2000.0, 1000.0, 500.0));
    afterScroll := w.PercentNow();
    w.Unmount();
    left := w.listeners;
    w.DispatchScroll(Metrics(2000.0, 1000.0, 1000.0));
    afterTeardown := w.PercentNow();
  }

  /** Mounting on a page that is already scrolled halfway renders
      valuenow 50, the 0 to 100 range, the label, and a fill of "50%". */
  method MountedHalfway() returns (bar: ProgressBar)
    ensures bar.valueNow == 50 && bar.valueMin == 0 && bar.valueMax == 100
    ensures bar.ariaLabel == "Reading progress" && bar.fillHeight == "50%"
  {
    var w := new ReadingProgress();
    w.Mount(Metrics(2000.0, 1000.0, 500.0));
    bar := w.Render();
  }
}
