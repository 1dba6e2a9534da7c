/** The home page script (attached_assets/script.js): the 12-hour clock text,
    the tab bar with a single active tab, the hover description line and the
    right-hand panel toggle.
    The current time is a parameter; DOM node lists are arrays of `active` flags. */
module HomeScreen {
  import opened Common

  // ---------------------------------------------------------------------
  // Decimal text

  predicate IsDigit(c: char) {
    '0' <= c <= '9'
  }

  predicate AllDigits(s: string) {
    forall i :: 0 <= i < |s| ==> IsDigit(s[i])
  }

  function DigitChar(d: nat): (c: char)
    requires d < 10
    ensures IsDigit(c)
  {
    ['0', '1', '2', '3', '4', '5', '6', '7', '8', '9'][d]
  }

  function DigitValue(c: char): (d: nat)
    requires IsDigit(c)
    ensures d < 10
  {
    (c as int - '0' as int) as nat
  }

  /** Value of a string of decimal digits, most significant first. */
  function ParseDecimal(s: string): nat
    requires AllDigits(s)
    decreases |s|
  {
    if s == [] then 0 else ParseDecimal(s[..|s| - 1]) * 10 + DigitValue(s[|s| - 1])
  }

  /** `Number.prototype.toString()` for a non-negative integer: shortest decimal text. */
  function DecimalText(n: nat): (s: string)
    ensures |s| >= 1 && AllDigits(s)
    ensures ParseDecimal(s) == n
    ensures n < 10 ==> |s| == 1
    ensures 10 <= n < 100 ==> |s| == 2
  {
    if n < 10 then [DigitChar(n)]
    else
      var prefix := DecimalText(n / 10);
      var s := prefix + [DigitChar(n % 10)];
      assert s[..|s| - 1] == prefix;
      s
  }

  /** `String.prototype.padStart(width, fill)`. */
  function PadStart(s: string, width: nat, fill: char): (r: string)
    ensures |r| == if |s| >= width then |s| else width
    ensures r[|r| - |s|..] == s
    ensures forall i :: 0 <= i < |r| - |s| ==> r[i] == fill
    decreases width - |s|
  {
    if |s| >= width then s else PadStart([fill] + s, width, fill)
  }

  /** A leading zero does not change a decimal value. */
  lemma {:induction false} LeadingZero(s: string)
    requires AllDigits(s)
    ensures AllDigits(['0'] + s) && ParseDecimal(['0'] + s) == ParseDecimal(s)
    decreases |s|
  {
    var t := ['0'] + s;
    if s != [] {
      assert t[..|t| - 1] == ['0'] + s[..|s| - 1];
      LeadingZero(s[..|s| - 1]);
    }
  }

  // ---------------------------------------------------------------------
  // The clock of `updateTime`

  /** `hours % 12 || 12`. */
  function DisplayHour(hours: nat): (r: nat)
    requires hours < 24
    ensures 1 <= r <= 12
    ensures r % 12 == hours % 12
    ensures hours == 0 || hours == 12 <==> r == 12
  {
    if hours % 12 == 0 then 12 else hours % 12
  }

  /** The AM/PM suffix. */
  function Meridiem(hours: nat): (r: string)
    ensures r == "PM" <==> hours >= 12
    ensures r == "AM" <==> hours < 12
  {
    if hours >= 12 then "PM" else "AM"
  }

  /** `minutes.toString().padStart(2, '0')`: always two digits with the minute's value. */
  function MinuteText(minutes: nat): (r: string)
    requires minutes < 60
    ensures |r| == 2 && AllDigits(r)
    ensures ParseDecimal(r) == minutes
    ensures minutes < 10 ==> r[0] == '0'
  {
    var digits := DecimalText(minutes);
    var r := PadStart(digits, 2, '0');
    if |digits| == 1 then
      assert r == ['0'] + digits;
      LeadingZero(digits);
      r
    else
      r
  }

  /** The clock text `${hours}:${minutes} ${ampm}`. */
  function ClockText(hours: nat, minutes: nat): (r: string)
    requires hours < 24 && minutes < 60
    ensures 7 <= |r| <= 8
    ensures SplitClockText(r) == Some((DecimalText(DisplayHour(hours)), MinuteText(minutes), Meridiem(hours)))
  {
    var hourText := DecimalText(DisplayHour(hours));
    SplitJoinedClockText(hourText, MinuteText(minutes), Meridiem(hours));
    hourText + ":" + MinuteText(minutes) + " " + Meridiem(hours)
  }

  /** Cuts a clock text into hour digits, minute digits and suffix at its `:` and its space. */
  function SplitClockText(s: string): Option<(string, string, string)> {
    if |s| < 7 || s[|s| - 6] != ':' || s[|s| - 3] != ' ' then None
    else Some((s[..|s| - 6], s[|s| - 5..|s| - 3], s[|s| - 2..]))
  }

  /** The 24-hour hour shown as `hour` with `suffix`. */
  function TwentyFourHour(hour: nat, suffix: string): Option<nat> {
    if suffix == "AM" then Some(if hour == 12 then 0 else hour)
    else if suffix == "PM" then Some(if hour == 12 then 12 else hour + 12)
    else None
  }

  /** Reads a clock text back into a 24-hour time. */
  function ParseClockText(s: string): Option<(nat, nat)> {
    match SplitClockText(s)
    case None => None
    case Some(parts) =>
      if !AllDigits(parts.0) || !AllDigits(parts.1) then None
      else match TwentyFourHour(ParseDecimal(parts.0), parts.2)
        case None => None
        case Some(h) => Some((h, ParseDecimal(parts.1)))
  }

  lemma SplitJoinedClockText(hourText: string, minuteText: string, suffix: string)
    requires |hourText| >= 1 && |minuteText| == 2 && |suffix| == 2
    ensures SplitClockText(hourText + ":" + minuteText + " " + suffix) == Some((hourText, minuteText, suffix))
  {
    var s := hourText + ":" + minuteText + " " + suffix;
    var n := |s|;
    assert s[..n - 6] == hourText;
    assert s[n - 5..n - 3] == minuteText;
    assert s[n - 2..] == suffix;
  }

  /** The displayed hour and its suffix determine the 24-hour hour. */
  lemma DisplayHourRoundTrip(hours: nat)
    requires hours < 24
    ensures TwentyFourHour(DisplayHour(hours), Meridiem(hours)) == Some(hours)
  {
  }

  lemma ParseJoinedClockText(hourText: string, minuteText: string, suffix: string, hour: nat, minute: nat)
    requires |hourText| >= 1 && |minuteText| == 2 && |suffix| == 2
    requires AllDigits(hourText) && AllDigits(minuteText)
    requires TwentyFourHour(ParseDecimal(hourText), suffix) == Some(hour) && ParseDecimal(minuteText) == minute
    ensures ParseClockText(hourText + ":" + minuteText + " " + suffix) == Some((hour, minute))
  {
    SplitJoinedClockText(hourText, minuteText, suffix);
  }

  /** The clock text loses nothing: the 24-hour time can be read back from it. */
  lemma ClockTextRoundTrip(hours: nat, minutes: nat)
    requires hours < 24 && minutes < 60
    ensures ParseClockText(ClockText(hours, minutes)) == Some((hours, minutes))
  {
    DisplayHourRoundTrip(hours);
    ParseJoinedClockText(DecimalText(DisplayHour(hours)), MinuteText(minutes), Meridiem(hours), hours, minutes);
  }

  /** Distinct times of day never show the same clock text. */
  lemma ClockTextInjective(h1: nat, m1: nat, h2: nat, m2: nat)
    requires h1 < 24 && m1 < 60 && h2 < 24 && m2 < 60
    requires ClockText(h1, m1) == ClockText(h2, m2)
    ensures h1 == h2 && m1 == m2
  {
    ClockTextRoundTrip(h1, m1);
    ClockTextRoundTrip(h2, m2);
  }

  // ---------------------------------------------------------------------
  // Tabs

  /** The `.tab-button` and `.tab-content` elements, by their `active` class. */
  class TabBar {
    const buttons: array<bool>
    const contents: array<bool>
    /** For each button, the tab content its `data-target` id names, or `None` when no element has that id. */
    const targets: seq<Option<nat>>

    ghost predicate Valid()
      reads this
    {
      && buttons != contents
      && |targets| == buttons.Length
      && forall i :: 0 <= i < |targets| && targets[i].Some? ==> targets[i].value < contents.Length
    }

    constructor (buttonsActive: seq<bool>, contentsActive: seq<bool>, targets: seq<Option<nat>>)
      requires |targets| == |buttonsActive|
      requires forall i :: 0 <= i < |targets| && targets[i].Some? ==> targets[i].value < |contentsActive|
      ensures Valid() && fresh(buttons) && fresh(contents)
      ensures buttons[..] == buttonsActive && contents[..] == contentsActive && this.targets == targets
    {
      buttons := new bool[|buttonsActive|](i requires 0 <= i < |buttonsActive| => buttonsActive[i]);
      contents := new bool[|contentsActive|](i requires 0 <= i < |contentsActive| => contentsActive[i]);
      this.targets := targets;
    }

    /** A click on button `b`: it alone becomes active, and so does its target content alone. A missing
        target stops the handler after every content was deactivated. */
    method Click(b: nat)
      requires Valid() && b < buttons.Length
      modifies buttons, contents
      ensures forall i :: 0 <= i < buttons.Length ==> buttons[i] == (i == b)
      ensures forall j: nat :: j < contents.Length ==> contents[j] == (targets[b] == Some(j))
    {
      var i := 0;
      while i < buttons.Length
        invariant 0 <= i <= buttons.Length
        invariant forall k :: 0 <= k < i ==> !buttons[k]
      {
        buttons[i] := false;
        i := i + 1;
      }
      var j := 0;
      while j < contents.Length
        invariant 0 <= j <= contents.Length
        invariant forall k :: 0 <= k < j ==> !contents[k]
        invariant forall k :: 0 <= k < buttons.Length ==> !buttons[k]
      {
        contents[j] := false;
        j := j + 1;
      }
      buttons[b] := true;
      if targets[b].Some? {
        contents[targets[b].value] := true;
      }
    }
  }

  /** `#description-text`, set while the pointer is over a menu button. */
  class DescriptionLine {
    var text: string

    /** `initialText` is what the page's markup puts in the element. */
    constructor (initialText: string)
      ensures text == initialText
    {
      text := initialText;
    }

    /** `dataText` is the button's `data-text` attribute (`None` when absent); an empty one changes nothing. */
    method MouseEnter(dataText: Option<string>)
      modifies this
      ensures dataText.Some? && dataText.value != "" ==> text == dataText.value
      ensures dataText.None? || dataText.value == "" ==> text == old(text)
    {
      if dataText.Some? && dataText.value != "" {
        text := dataText.value;
      }
    }

    method MouseLeave()
      modifies this
      ensures text == ""
    {
      text := "";
    }
  }

  /** `#rightPanel`, by its `active` class: the device-settings button shows it, the back button hides it. */
  class RightPanel {
    var active: bool

    /** `initiallyActive` says whether the page's markup gives the panel the `active` class. */
    constructor (initiallyActive: bool)
      ensures active == initiallyActive
    {
      active := initiallyActive;
    }

    method DeviceSettingsClicked()
      modifies this
      ensures active
    {
      active := true;
    }

    method BackClicked()
      modifies this
      ensures !active
    {
      active := false;
    }
  }
}
