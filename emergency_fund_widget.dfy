/**
 * `EmergencyFundWidget`: savings against a target of a number of months of salary, with a
 * progress bar coloured by band and a footer with what is still needed.
 */
module EmergencyFundWidget {
  import MonthlySummaryWidgets
  import BurnRateWidget

  /** `targetAmount`. */
  function TargetAmount(monthlySalary: real, emergencyFundMonths: real): real
  {
    monthlySalary * emergencyFundMonths
  }

  /**
   * A salary the preferences form accepts (positive) and a target of at least one month give a
   * target of at least one month's salary, so the widget shows real progress.
   */
  lemma AcceptedPreferencesGivePositiveTarget(monthlySalary: real, emergencyFundMonths: int)
    requires monthlySalary > 0.0 && emergencyFundMonths >= 1
    ensures TargetAmount(monthlySalary, emergencyFundMonths as real) >= monthlySalary > 0.0
  {
    assert monthlySalary * (emergencyFundMonths as real - 1.0) >= 0.0;
  }

  /** `progressPercentage`: savings as a share of the target, the same division as the burn percentage; 0 without a positive target. */
  function Progress(currentSavings: real, targetAmount: real): (r: real)
    ensures targetAmount <= 0.0 ==> r == 0.0
    ensures targetAmount > 0.0 ==> r * targetAmount == currentSavings * 100.0
  {
    MonthlySummaryWidgets.BurnPercentage(currentSavings, targetAmount)
  }

  /** With a positive target, the progress reaches 100% exactly when the savings reach the target. */
  lemma ProgressComplete(currentSavings: real, targetAmount: real)
    requires targetAmount > 0.0
    ensures Progress(currentSavings, targetAmount) >= 100.0 <==> currentSavings >= targetAmount
  {
    var p := Progress(currentSavings, targetAmount);
    if p < 100.0 {
      assert (100.0 - p) * targetAmount > 0.0;
    } else {
      assert (p - 100.0) * targetAmount >= 0.0;
    }
  }

  /** The three bands: green once the target is met, blue from half way, orange below. */
  datatype Band = Green | Blue | Orange

  function BandOf(progress: real): (b: Band)
    ensures b == Green <==> progress >= 100.0
    ensures b == Orange <==> progress < 50.0
  {
    if progress >= 100.0 then Green else if progress >= 50.0 then Blue else Orange
  }

  /** The classes of a band (`getColorClasses`). */
  datatype ColorClasses = ColorClasses(bg: string, text: string, border: string, progress: string)

  function GetColorClasses(progress: real): (c: ColorClasses)
    ensures BandOf(progress) == Green ==> c.progress == "bg-green-500"
    ensures BandOf(progress) == Blue ==> c.progress == "bg-blue-500"
    ensures BandOf(progress) == Orange ==> c.progress == "bg-orange-500"
  {
    if progress >= 100.0 then ColorClasses("bg-green-500/10", "text-green-400", "border-green-500/30", "bg-green-500")
    else if progress >= 50.0 then ColorClasses("bg-blue-500/10", "text-blue-400", "border-blue-500/30", "bg-blue-500")
    else ColorClasses("bg-orange-500/10", "text-orange-400", "border-orange-500/30", "bg-orange-500")
  }

  /** The bar width: the progress, capped at a full bar. */
  function BarWidth(progress: real): (w: real)
    ensures w <= 100.0 && (w == progress <==> progress <= 100.0)
    ensures progress > 100.0 ==> w == 100.0
  {
    BurnRateWidget.BarWidth(progress)
  }

  /** The footer: the amount still needed, or that the target is met. */
  datatype Footer = Need(amount: real) | Achieved

  function FooterOf(currentSavings: real, targetAmount: real): (f: Footer)
    ensures f.Need? <==> currentSavings < targetAmount
    ensures f.Need? ==> f.amount > 0.0 && f.amount + currentSavings == targetAmount
  {
    if currentSavings < targetAmount then Need(targetAmount - currentSavings) else Achieved
  }

  /** With a positive target, "achieved", a full bar and the green band come together. */
  lemma AchievedIffGreen(currentSavings: real, targetAmount: real)
    requires targetAmount > 0.0
    ensures var p := Progress(currentSavings, targetAmount);
      (FooterOf(currentSavings, targetAmount) == Achieved <==> BandOf(p) == Green)
      && (BandOf(p) == Green ==> BarWidth(p) == 100.0)
  {
    ProgressComplete(currentSavings, targetAmount);
  }

  /**
   * Without a salary or a number of months the target is 0: nothing saved then shows
   * "achieved" at 0% progress in the orange band.
   */
  lemma ZeroTargetAchievedAtZeroProgress(monthlySalary: real, emergencyFundMonths: real)
    requires monthlySalary == 0.0 || emergencyFundMonths == 0.0
    ensures var target := TargetAmount(monthlySalary, emergencyFundMonths);
      && FooterOf(0.0, target) == Achieved
      && Progress(0.0, target) == 0.0
      && BandOf(Progress(0.0, target)) == Orange
  {
  }
}
