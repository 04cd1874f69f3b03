/**
 * `logic/generator.py`: the downloadable move checklist.  A fixed banner,
 * the two cities and the generation date, then four titled sections of
 * "[ ] " items, all joined with newlines.
 *
 * The checklist's fixed wording (every literal sentence and every f-string
 * template of the source) is gathered in one `Wording` value, `SourceWording`;
 * the builder and the lemmas about the layout hold for any wording of the
 * same shape and are applied to the source's own.
 */
module Generator {
  import opened Common

  // ---------------------------------------------------------------------------
  // Text helpers

  predicate IsLowerAscii(c: char)
  {
    'a' <= c <= 'z'
  }

  function UpperChar(c: char): char
  {
    if IsLowerAscii(c) then (c as int - 32) as char else c
  }

  /** `str.upper()` on ASCII text (the section titles are ASCII constants). */
  function Upper(s: string): (r: string)
    ensures |r| == |s|
    ensures forall i :: 0 <= i < |s| ==> r[i] == UpperChar(s[i])
  {
    seq(|s|, i requires 0 <= i < |s| => UpperChar(s[i]))
  }

  /** Upper-casing leaves no lower-case letter and is idempotent. */
  lemma UpperIsUpper(s: string)
    ensures forall i :: 0 <= i < |Upper(s)| ==> !IsLowerAscii(Upper(s)[i])
    ensures Upper(Upper(s)) == Upper(s)
  {
  }

  /**
   * An f-string: its literal parts with the arguments between them, so
   * `Fill(["a ", " b"], [x])` is `f"a {x} b"`.
   */
  function Fill(parts: seq<string>, args: seq<string>): (r: string)
    requires |parts| == |args| + 1
    decreases |args|
  {
    if args == [] then parts[0] else parts[0] + args[0] + Fill(parts[1..], args[1..])
  }

  /** `sep.join(lines)`: every line, and one separator between each two. */
  function Join(lines: seq<string>, sep: string): (r: string)
    ensures lines == [] ==> r == ""
    ensures lines != [] ==> |r| == TotalLength(lines) + (|lines| - 1) * |sep|
  {
    if lines == [] then ""
    else if |lines| == 1 then assert lines[..0] == []; lines[0]
    else
      var init := lines[..|lines| - 1];
      assert (|lines| - 1) * |sep| == (|init| - 1) * |sep| + |sep|;
      Join(init, sep) + sep + lines[|lines| - 1]
  }

  function TotalLength(lines: seq<string>): nat
  {
    if lines == [] then 0 else TotalLength(lines[..|lines| - 1]) + |lines[|lines| - 1]|
  }

  /** Joining two non-empty blocks of lines is joining each and separating the two. */
  lemma {:induction false} JoinAppend(a: seq<string>, b: seq<string>, sep: string)
    requires a != [] && b != []
    ensures Join(a + b, sep) == Join(a, sep) + sep + Join(b, sep)
  {
    var n := |b| - 1;
    if n == 0 {
      assert (a + b)[..|a + b| - 1] == a;
    } else {
      var init := b[..n];
      assert (a + b)[..|a + b| - 1] == a + init;
      assert b[..|b| - 1] == init;
      JoinAppend(a, init, sep);
      calc {
        Join(a + b, sep);
        Join(a + init, sep) + sep + b[n];
        (Join(a, sep) + sep + Join(init, sep)) + sep + b[n];
        Join(a, sep) + sep + (Join(init, sep) + sep + b[n]);
        Join(a, sep) + sep + Join(b, sep);
      }
    }
  }

  // ---------------------------------------------------------------------------
  // The wording

  datatype Wording = Wording(
    rule: string, bannerTitle: string,
    movingFrom: string, movingTo: string, generatedOn: string,
    logisticsTitle: string, packingTitle: string, wellnessTitle: string, remoteWorkTitle: string,
    logistics: seq<string>,
    reviewSeasonal: seq<string>,    // f"... {sim_month} ... {city_to_short}."
    packSeasonal: seq<string>,      // f"... {sim_month} weather in {city_to_short}."
    checkForecast: seq<string>,     // f"... for {city_to_short} before you travel."
    packForNow: string, localClimatePrep: string,
    adjustBodyClock: seq<string>,   // f"... waking at {wake} and sleeping at {sleep}."
    updateCalendars: string, planWorkouts: string,
    hydration: seq<string>,         // f"... for {city_to_short} and plan ..."
    healthcare: string,
    remoteWork: seq<string>)
  {
    /** Five logistics items, three remote-work items, and templates with the holes the source fills. */
    predicate WellFormed()
    {
      && |logistics| == 5 && |remoteWork| == 3
      && |reviewSeasonal| == 3 && |packSeasonal| == 3 && |checkForecast| == 2
      && |adjustBodyClock| == 3 && |hydration| == 2
    }
  }

  /** The text of `logic/generator.py`. */
  const SourceWording := Wording(
    "===============================================",
    "    MoveGuiderAI - Your Personalized Move Plan",
    "\nMoving from: ", "Moving to: ", "Generated on: ",
    "1. Logistics & Administration", "2. Packing & Environmental Prep",
    "3. Routine & Wellness Transition", "4. Remote Work Setup",
    [ "Research: Cost of living, housing, and neighborhoods.",
      "Legal: Check visa/work permit requirements if applicable.",
      "Address Change: Update with USPS/mail service, banks, subscriptions.",
      "Utilities: Arrange disconnection at old address and setup at new address (Internet, electricity, water, gas).",
      "Employer: Notify your team of the move and any changes to your working hours." ],
    [ "Review Seasonal Data: You planned for a move in ", ". Review the charts for typical conditions in ", "." ],
    [ "Pack Accordingly: Pack clothing suitable for ", " weather in ", "." ],
    [ "Check 7-Day Forecast: Review the live forecast for ", " before you travel." ],
    "Pack Accordingly: Pack for the immediate weather conditions.",
    "Local Climate Prep: Be ready for local norms (e.g., high humidity gear, rain protection, sunblock).",
    [ "Adjust Body Clock: Start adjusting to your new local time. Your plan is based on waking at ",
      " and sleeping at ", "." ],
    "Update Calendars: Shift all digital calendar events and reminders to the new timezone.",
    "Plan Workouts: Use the 'Best Workout Times' recommendations to schedule your first week of fitness.",
    [ "Hydration: Note the hydration needs for ", " and plan to drink enough water, especially on day one." ],
    "Healthcare: Research and shortlist new doctors, dentists, and other healthcare providers.",
    [ "Day 1 Connectivity: Ensure you have a plan for internet on your first day (e.g., mobile hotspot as a backup).",
      "Test Your Setup: Once internet is live, test your full remote work stack (VPN, video calls, software access).",
      "Find Your Spots: Research local coffee shops or coworking spaces with good Wi-Fi as alternatives." ])

  lemma SourceWordingWellFormed()
    ensures SourceWording.WellFormed()
  {
  }

  const Missing := "N/A"

  /**
   * A section header line: the title upper-cased between "--- " and " ---",
   * on a line of its own; it is never mistaken for an item line.
   */
  function Header(title: string): (r: string)
    ensures |r| == |title| + 10
    ensures r[..5] == "\n--- " && r[|r| - 5..] == " ---\n"
    ensures r[5..5 + |title|] == Upper(title)
    ensures !IsItemLine(r)
  {
    var r := "\n--- " + Upper(title) + " ---\n";
    assert r[0] == '\n';
    r
  }

  /** An item line: an unticked box, then the item's text. */
  function Item(item: string): (r: string)
    ensures IsItemLine(r) && r[4..] == item
  {
    "[ ] " + item
  }

  /**
   * The condition `plan_mode == "Seasonal Simulation" and sim_month`: the
   * mode is exactly that string and a month is given that is not empty.
   */
  predicate Seasonal(planMode: string, simMonth: Option<string>): (b: bool)
    ensures b <==> planMode == "Seasonal Simulation" && simMonth.Some? && |simMonth.value| > 0
  {
    planMode == "Seasonal Simulation" && simMonth.Some? && simMonth.value != ""
  }

  /** `user_profile.get("user_settings", {}).get(key, "N/A")`. */
  function Setting(userSettings: Option<map<string, string>>, key: string): (r: string)
    ensures userSettings.None? ==> r == Missing
    ensures userSettings.Some? && key !in userSettings.value ==> r == Missing
    ensures userSettings.Some? && key in userSettings.value ==> r == userSettings.value[key]
  {
    match userSettings
    case None => Missing
    case Some(s) => if key in s then s[key] else Missing
  }

  // ---------------------------------------------------------------------------
  // The reference text

  function SectionLines(title: string, items: seq<string>): (r: seq<string>)
    ensures |r| == 1 + |items|
  {
    [Header(title)] + seq(|items|, i requires 0 <= i < |items| => Item(items[i]))
  }

  function PackingItems(w: Wording, planMode: string, simMonth: Option<string>, city: string): (r: seq<string>)
    requires w.WellFormed()
    ensures |r| == 3
  {
    if Seasonal(planMode, simMonth)
    then [Fill(w.reviewSeasonal, [simMonth.value, city]), Fill(w.packSeasonal, [simMonth.value, city]), w.localClimatePrep]
    else [Fill(w.checkForecast, [city]), w.packForNow, w.localClimatePrep]
  }

  function WellnessItems(w: Wording, wake: string, sleep: string, city: string): (r: seq<string>)
    requires w.WellFormed()
    ensures |r| == 5
  {
    [Fill(w.adjustBodyClock, [wake, sleep]), w.updateCalendars, w.planWorkouts, Fill(w.hydration, [city]), w.healthcare]
  }

  function BannerLines(w: Wording, cityFrom: string, cityTo: string, today: string): (r: seq<string>)
    ensures |r| == 6
  {
    [w.rule, w.bannerTitle, w.rule, w.movingFrom + cityFrom, w.movingTo + ShortName(cityTo), w.generatedOn + today + "\n"]
  }

  /** Every line of the checklist, in order: six banner lines and four sections, 26 in all. */
  function ChecklistLines(w: Wording, cityFrom: string, cityTo: string, planMode: string, simMonth: Option<string>,
                          userSettings: Option<map<string, string>>, today: string): (r: seq<string>)
    requires w.WellFormed()
    ensures |r| == 26
    ensures r[..6] == BannerLines(w, cityFrom, cityTo, today)
  {
    var city := ShortName(cityTo);
    BannerLines(w, cityFrom, cityTo, today)
      + SectionLines(w.logisticsTitle, w.logistics)
      + SectionLines(w.packingTitle, PackingItems(w, planMode, simMonth, city))
      + SectionLines(w.wellnessTitle, WellnessItems(w, Setting(userSettings, "wake_time"), Setting(userSettings, "sleep_time"), city))
      + SectionLines(w.remoteWorkTitle, w.remoteWork)
  }

  // ---------------------------------------------------------------------------
  // The imperative builder

  /** The `lines` list that `generate_move_checklist_text` and `add_section` append to. */
  class LineList {
    var lines: seq<string>

    constructor ()
      ensures lines == []
    {
      lines := [];
    }

    /** `lines.append(line)`. */
    method Append(line: string)
      modifies this
      ensures lines == old(lines) + [line]
    {
      lines := lines + [line];
    }

    /** `add_section(title, items)`: the header, then one line per item. */
    method AddSection(title: string, items: seq<string>)
      modifies this
      ensures lines == old(lines) + SectionLines(title, items)
    {
      Append(Header(title));
      var i := 0;
      while i < |items|
        invariant 0 <= i <= |items|
        invariant lines == old(lines) + [Header(title)] + seq(i, j requires 0 <= j < i => Item(items[j]))
      {
        Append(Item(items[i]));
        i := i + 1;
      }
    }
  }

  /** The body of `generate_move_checklist_text`, for the wording `w`. */
  method GenerateWith(w: Wording, cityFrom: string, cityTo: string, planMode: string, simMonth: Option<string>,
                      userSettings: Option<map<string, string>>, today: string)
    returns (text: string)
    requires w.WellFormed()
    ensures text == Join(ChecklistLines(w, cityFrom, cityTo, planMode, simMonth, userSettings, today), "\n")
  {
    var city := ShortName(cityTo);
    var out := new LineList();
    out.Append(w.rule);
    out.Append(w.bannerTitle);
    out.Append(w.rule);
    out.Append(w.movingFrom + cityFrom);
    out.Append(w.movingTo + city);
    out.Append(w.generatedOn + today + "\n");
    assert out.lines == BannerLines(w, cityFrom, cityTo, today);

    out.AddSection(w.logisticsTitle, w.logistics);

    var packingItems: seq<string> := [];
    if planMode == "Seasonal Simulation" && simMonth.Some? && simMonth.value != "" {
      packingItems := packingItems + [Fill(w.reviewSeasonal, [simMonth.value, city])];
      packingItems := packingItems + [Fill(w.packSeasonal, [simMonth.value, city])];
    } else {
      packingItems := packingItems + [Fill(w.checkForecast, [city])];
      packingItems := packingItems + [w.packForNow];
    }
    packingItems := packingItems + [w.localClimatePrep];
    assert packingItems == PackingItems(w, planMode, simMonth, city);
    out.AddSection(w.packingTitle, packingItems);

    var wake := Setting(userSettings, "wake_time");
    var sleep := Setting(userSettings, "sleep_time");
    out.AddSection(w.wellnessTitle, WellnessItems(w, wake, sleep, city));

    out.AddSection(w.remoteWorkTitle, w.remoteWork);
    text := Join(out.lines, "\n");
  }

  /**
   * `generate_move_checklist_text`, with `datetime.now().strftime('%Y-%m-%d')`
   * passed in as `today` and the profile's "user_settings" dictionary as
   * `userSettings` (`None` when the profile has none).
   */
  method GenerateMoveChecklistText(cityFrom: string, cityTo: string, planMode: string, simMonth: Option<string>,
                                   userSettings: Option<map<string, string>>, today: string)
    returns (text: string)
    ensures SourceWording.WellFormed()
    ensures text == Join(ChecklistLines(SourceWording, cityFrom, cityTo, planMode, simMonth, userSettings, today), "\n")
  {
    SourceWordingWellFormed();
    text := GenerateWith(SourceWording, cityFrom, cityTo, planMode, simMonth, userSettings, today);
  }

  // ---------------------------------------------------------------------------
  // What the checklist looks like

  predicate IsItemLine(line: string)
  {
    |line| >= 4 && line[..4] == "[ ] "
  }

  /** Every line of a section after its header is an item line. */
  lemma SectionItems(title: string, items: seq<string>)
    ensures forall i :: 1 <= i <= |items| ==> SectionLines(title, items)[i] == Item(items[i - 1])
    ensures forall i :: 1 <= i <= |items| ==> IsItemLine(SectionLines(title, items)[i])
  {
    forall i | 1 <= i <= |items| ensures IsItemLine(SectionLines(title, items)[i]) {
      assert SectionLines(title, items)[i] == Item(items[i - 1]);
    }
  }

  /**
   * The checklist has 26 lines: six banner lines, then the four section
   * headers at lines 6, 12, 16 and 22 with 5, 3, 5 and 3 item lines after
   * them.
   */
  lemma ChecklistShape(w: Wording, cityFrom: string, cityTo: string, planMode: string, simMonth: Option<string>,
                       userSettings: Option<map<string, string>>, today: string)
    requires w.WellFormed()
    ensures var lines := ChecklistLines(w, cityFrom, cityTo, planMode, simMonth, userSettings, today);
      && |lines| == 26
      && lines[..3] == [w.rule, w.bannerTitle, w.rule]
      && lines[3] == w.movingFrom + cityFrom
      && lines[4] == w.movingTo + ShortName(cityTo)
      && lines[5] == w.generatedOn + today + "\n"
      && lines[6] == Header(w.logisticsTitle)
      && lines[12] == Header(w.packingTitle)
      && lines[16] == Header(w.wellnessTitle)
      && lines[22] == Header(w.remoteWorkTitle)
    ensures var lines := ChecklistLines(w, cityFrom, cityTo, planMode, simMonth, userSettings, today);
      forall i :: 6 <= i < 26 && i != 6 && i != 12 && i != 16 && i != 22 ==> IsItemLine(lines[i])
  {
    var city := ShortName(cityTo);
    var lines := ChecklistLines(w, cityFrom, cityTo, planMode, simMonth, userSettings, today);
    var packing := PackingItems(w, planMode, simMonth, city);
    var wellness := WellnessItems(w, Setting(userSettings, "wake_time"), Setting(userSettings, "sleep_time"), city);
    var s1 := SectionLines(w.logisticsTitle, w.logistics);
    var s2 := SectionLines(w.packingTitle, packing);
    var s3 := SectionLines(w.wellnessTitle, wellness);
    var s4 := SectionLines(w.remoteWorkTitle, w.remoteWork);
    SectionItems(w.logisticsTitle, w.logistics);
    SectionItems(w.packingTitle, packing);
    SectionItems(w.wellnessTitle, wellness);
    SectionItems(w.remoteWorkTitle, w.remoteWork);
    forall i | 6 <= i < 26 && i != 6 && i != 12 && i != 16 && i != 22 ensures IsItemLine(lines[i]) {
      if i < 12 { assert lines[i] == s1[i - 6]; }
      else if i < 16 { assert lines[i] == s2[i - 12]; }
      else if i < 22 { assert lines[i] == s3[i - 16]; }
      else { assert lines[i] == s4[i - 22]; }
    }
  }

  /**
   * The two packing lines after the header are the seasonal ones exactly
   * when the plan is a seasonal simulation with a month; otherwise they are
   * the live-forecast ones.  The third is always the local-climate line.
   */
  lemma PackingBranch(w: Wording, cityFrom: string, cityTo: string, planMode: string, simMonth: Option<string>,
                      userSettings: Option<map<string, string>>, today: string)
    requires w.WellFormed()
    ensures var lines, city := ChecklistLines(w, cityFrom, cityTo, planMode, simMonth, userSettings, today), ShortName(cityTo);
      && (Seasonal(planMode, simMonth) ==>
            && lines[13] == Item(Fill(w.reviewSeasonal, [simMonth.value, city]))
            && lines[14] == Item(Fill(w.packSeasonal, [simMonth.value, city])))
      && (!Seasonal(planMode, simMonth) ==>
            lines[13] == Item(Fill(w.checkForecast, [city])) && lines[14] == Item(w.packForNow))
      && lines[15] == Item(w.localClimatePrep)
  {
    var city := ShortName(cityTo);
    var packing := PackingItems(w, planMode, simMonth, city);
    SectionItems(w.packingTitle, packing);
  }

  /**
   * The wellness line names the profile's wake and sleep times, and "N/A"
   * for whichever the profile's settings lack.
   */
  lemma WellnessTimes(w: Wording, cityFrom: string, cityTo: string, planMode: string, simMonth: Option<string>,
                      userSettings: Option<map<string, string>>, today: string)
    requires w.WellFormed()
    ensures var lines := ChecklistLines(w, cityFrom, cityTo, planMode, simMonth, userSettings, today);
      lines[17] == Item(Fill(w.adjustBodyClock, [Setting(userSettings, "wake_time"), Setting(userSettings, "sleep_time")]))
    ensures userSettings.None? ==>
      ChecklistLines(w, cityFrom, cityTo, planMode, simMonth, userSettings, today)[17]
        == Item(Fill(w.adjustBodyClock, [Missing, Missing]))
  {
    var city := ShortName(cityTo);
    var wellness := WellnessItems(w, Setting(userSettings, "wake_time"), Setting(userSettings, "sleep_time"), city);
    SectionItems(w.wellnessTitle, wellness);
  }
}
