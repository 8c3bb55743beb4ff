/**
 * The plain-text quote handed to the mail and chat links: the list of lines
 * before they are joined and percent-encoded.
 */
module Quote {
  import opened Basics
  import opened Catalog
  import opened Itinerary
  import opened Pricing
  import opened Trip

  function Digit(d: nat): (c: char)
    requires d < 10
    ensures '0' <= c <= '9' && (c - '0') as nat == d
  {
    (48 + d) as char
  }

  /** `${n}` of a whole number: its decimal digits, without leading zeros. */
  function Decimal(n: nat): (r: string)
    ensures |r| >= 1
    ensures forall i :: 0 <= i < |r| ==> '0' <= r[i] <= '9'
    ensures r[0] == '0' <==> n == 0
    decreases n
  {
    if n < 10 then [Digit(n)] else Decimal(n / 10) + [Digit(n % 10)]
  }

  /** The value of a string of decimal digits. */
  function DigitsValue(s: string): nat
  {
    if s == [] then 0
    else DigitsValue(s[..|s| - 1]) * 10 + (if '0' <= s[|s| - 1] <= '9' then (s[|s| - 1] - '0') as nat else 0)
  }

  /** Reading the digits back gives the number. */
  lemma {:induction false} DecimalRoundTrip(n: nat)
    ensures DigitsValue(Decimal(n)) == n
    decreases n
  {
    var r := Decimal(n);
    if n < 10 {
      assert r[..0] == [];
    } else {
      DecimalRoundTrip(n / 10);
      assert r[..|r| - 1] == Decimal(n / 10);
      assert r[|r| - 1] == Digit(n % 10);
    }
  }

  /** Three digits, with leading zeros. */
  function Pad3(n: nat): (r: string)
    requires n < 1000
    ensures r == [Digit(n / 100), Digit(n / 10 % 10), Digit(n % 10)]
  {
    if n < 10 then "00" + Decimal(n)
    else if n < 100 then
      assert Decimal(n) == Decimal(n / 10) + [Digit(n % 10)];
      "0" + Decimal(n)
    else
      assert Decimal(n) == Decimal(n / 10) + [Digit(n % 10)];
      assert Decimal(n / 10) == Decimal(n / 100) + [Digit(n / 10 % 10)];
      Decimal(n)
  }

  /** From four digits on, the decimal text is the thousands' text followed by three padded digits. */
  lemma DecimalThousands(n: nat)
    requires n >= 1000
    ensures Decimal(n) == Decimal(n / 1000) + Pad3(n % 1000)
  {
    var n1 := n / 10;
    var n2 := n1 / 10;
    ThousandsDigits(n);
    assert Decimal(n2) == Decimal(n / 1000) + [Digit(n2 % 10)];
    assert Decimal(n1) == Decimal(n2) + [Digit(n1 % 10)];
    assert Decimal(n) == Decimal(n1) + [Digit(n % 10)];
  }

  /** The last three digits of `n` are those of `n % 1000`, and dropping them leaves `n / 1000`. */
  lemma ThousandsDigits(n: nat)
    ensures n / 10 / 10 / 10 == n / 1000
    ensures n % 1000 / 100 == n / 10 / 10 % 10
    ensures n % 1000 / 10 % 10 == n / 10 % 10
    ensures n % 1000 % 10 == n % 10
  {
    var a, b := n / 1000, n % 1000;
    assert n == 1000 * a + b;
    assert n / 10 == 100 * a + b / 10;
    assert n / 10 / 10 == 10 * a + b / 100;
  }

  /** `toLocaleString()` of a whole number in English: digits grouped by three with commas. */
  function Grouped(n: nat): string
    decreases n
  {
    if n < 1000 then Decimal(n) else Grouped(n / 1000) + "," + Pad3(n % 1000)
  }

  /** The text with its commas removed. */
  function Uncomma(s: string): string
  {
    if s == [] then [] else (if s[0] == ',' then [] else [s[0]]) + Uncomma(s[1..])
  }

  lemma {:induction false} UncommaAppend(x: string, y: string)
    ensures Uncomma(x + y) == Uncomma(x) + Uncomma(y)
  {
    if x == [] {
      assert x + y == y;
    } else {
      assert (x + y)[1..] == x[1..] + y;
      UncommaAppend(x[1..], y);
    }
  }

  lemma {:induction false} UncommaDigits(s: string)
    requires forall i :: 0 <= i < |s| ==> '0' <= s[i] <= '9'
    ensures Uncomma(s) == s
  {
    if s != [] {
      UncommaDigits(s[1..]);
    }
  }

  /** Removing the commas around a comma-joined pair removes that comma. */
  lemma UncommaComma(g: string, p: string)
    ensures Uncomma(g + "," + p) == Uncomma(g) + Uncomma(p)
  {
    var c := ",";
    assert Uncomma(c) == [] by {
      assert c[0] == ',' && c[1..] == [];
    }
    UncommaAppend(g, c);
    assert Uncomma(g + c) == Uncomma(g);
    UncommaAppend(g + c, p);
  }

  /** Three padded digits contain no comma. */
  lemma UncommaPad3(m: nat)
    requires m < 1000
    ensures Uncomma(Pad3(m)) == Pad3(m)
  {
    UncommaDigits(Pad3(m));
  }

  /** The grouped text is the decimal text with commas inserted. */
  lemma {:induction false} GroupedDigits(n: nat)
    ensures Uncomma(Grouped(n)) == Decimal(n)
    decreases n
  {
    if n < 1000 {
      UncommaDigits(Decimal(n));
    } else {
      GroupedDigits(n / 1000);
      UncommaComma(Grouped(n / 1000), Pad3(n % 1000));
      UncommaPad3(n % 1000);
      DecimalThousands(n);
    }
  }


  /** Every character is a decimal digit. */
  predicate AllDigits(s: string)
  {
    forall i :: 0 <= i < |s| ==> '0' <= s[i] <= '9'
  }

  /**
   * Digit groups: a leading group of one to three digits, then zero or more
   * groups of a comma followed by exactly three digits.
   */
  predicate ThreeDigitGroups(s: string)
    decreases |s|
  {
    (1 <= |s| <= 3 && AllDigits(s))
    || (|s| >= 5 && s[|s| - 4] == ',' && AllDigits(s[|s| - 3..]) && ThreeDigitGroups(s[..|s| - 4]))
  }

  /** A number below 1000 has at most three digits. */
  lemma DecimalShort(n: nat)
    requires n < 1000
    ensures |Decimal(n)| <= 3
  {
    if n >= 10 {
      assert |Decimal(n / 10)| <= 2 by {
        if n / 10 >= 10 {
          assert Decimal(n / 10) == Decimal(n / 100) + [Digit(n / 10 % 10)];
        }
      }
    }
  }

  /** The commas of `toLocaleString()` sit before each group of three digits, counted from the right. */
  lemma {:induction false} GroupedCommas(n: nat)
    ensures ThreeDigitGroups(Grouped(n))
    decreases n
  {
    if n < 1000 {
      DecimalShort(n);
    } else {
      GroupedCommas(n / 1000);
      AppendGroup(Grouped(n / 1000), Pad3(n % 1000));
    }
  }

  /** A comma and three more digits extend digit groups. */
  lemma AppendGroup(h: string, p: string)
    requires ThreeDigitGroups(h) && |p| == 3 && AllDigits(p)
    ensures ThreeDigitGroups(h + "," + p)
  {
    var g := h + "," + p;
    assert g[..|g| - 4] == h;
    assert g[|g| - 3..] == p;
  }

  /** `${x}` of a value that may be `undefined`. */
  function OrUndefined(o: Option<string>): string
  {
    match o
    case Some(v) => v
    case None => "undefined"
  }

  /** `Array.prototype.join`. */
  function Join(xs: seq<string>, sep: string): (r: string)
    ensures |sep| > 0 ==> (r == "" <==> xs == [] || (|xs| == 1 && xs[0] == ""))
  {
    if xs == [] then "" else if |xs| == 1 then xs[0] else xs[0] + sep + Join(xs[1..], sep)
  }

  /** The catalog label of an add-on id; `undefined` joins as the empty string. */
  function AddonCaption(addons: seq<Addon>, id: Id): string
  {
    match FindAddon(addons, id)
    case Some(a) => a.caption
    case None => ""
  }

  /** No add-on entry is checked. */
  predicate NoneChecked(s: seq<Toggle>)
  {
    forall i :: 0 <= i < |s| ==> !s[i].on
  }

  /** The labels of the checked entries, in entry order, each given by `caption` of its id. */
  function CheckedLabels(caption: Id -> string, s: seq<Toggle>): (r: seq<string>)
    ensures |r| <= |s|
    ensures r == [] <==> NoneChecked(s)
  {
    if s == [] then []
    else (if s[0].on then [caption(s[0].id)] else []) + CheckedLabels(caption, s[1..])
  }

  /** Every checked entry's label is listed. */
  lemma {:induction false} CheckedLabelsComplete(caption: Id -> string, s: seq<Toggle>)
    ensures forall i :: 0 <= i < |s| && s[i].on ==> caption(s[i].id) in CheckedLabels(caption, s)
  {
    if s != [] {
      var r, rest := CheckedLabels(caption, s), CheckedLabels(caption, s[1..]);
      CheckedLabelsComplete(caption, s[1..]);
      assert r == (if s[0].on then [caption(s[0].id)] else []) + rest;
      forall i | 0 <= i < |s| && s[i].on
        ensures caption(s[i].id) in r
      {
        if i > 0 {
          assert s[1..][i - 1] == s[i];
        }
      }
    }
  }

  /** Every listed label is the label of a checked entry. */
  lemma {:induction false} CheckedLabelsSound(caption: Id -> string, s: seq<Toggle>)
    ensures forall l :: l in CheckedLabels(caption, s) ==>
      exists i :: 0 <= i < |s| && s[i].on && caption(s[i].id) == l
  {
    if s != [] {
      var r, rest := CheckedLabels(caption, s), CheckedLabels(caption, s[1..]);
      CheckedLabelsSound(caption, s[1..]);
      assert r == (if s[0].on then [caption(s[0].id)] else []) + rest;
      forall l | l in r
        ensures exists i :: 0 <= i < |s| && s[i].on && caption(s[i].id) == l
      {
        if l in rest {
          var j :| 0 <= j < |s[1..]| && s[1..][j].on && caption(s[1..][j].id) == l;
          assert s[j + 1] == s[1..][j];
        } else {
          assert s[0].on && caption(s[0].id) == l;
        }
      }
    }
  }

  /** The labels of two runs of entries are listed run by run, each in entry order. */
  lemma {:induction false} CheckedLabelsAppend(caption: Id -> string, s: seq<Toggle>, t: seq<Toggle>)
    ensures CheckedLabels(caption, s + t) == CheckedLabels(caption, s) + CheckedLabels(caption, t)
  {
    if s == [] {
      assert s + t == t;
    } else {
      var u, h := s + t, if s[0].on then [caption(s[0].id)] else [];
      assert CheckedLabels(caption, u) == h + CheckedLabels(caption, s[1..] + t) by {
        assert u != [] && u[0] == s[0] && u[1..] == s[1..] + t;
      }
      CheckedLabelsAppend(caption, s[1..], t);
      calc {
        CheckedLabels(caption, u);
        h + (CheckedLabels(caption, s[1..]) + CheckedLabels(caption, t));
        (h + CheckedLabels(caption, s[1..])) + CheckedLabels(caption, t);
      }
    }
  }

  /** The text after "Add-ons: ": the checked labels, or "None" when they join to nothing. */
  function AddonsText(addons: seq<Addon>, s: seq<Toggle>): (r: string)
    ensures r != ""
    ensures NoneChecked(s) ==> r == "None"
  {
    var joined := Join(CheckedLabels(id => AddonCaption(addons, id), s), ", ");
    if joined == "" then "None" else joined
  }

  /**
   * `filter(Boolean)` on strings: drops the empty ones; `NonEmptyCounts` and
   * `NonEmptyAppend` say each other line is kept as often as it occurs and in order.
   */
  function NonEmpty(xs: seq<string>): (r: seq<string>)
    ensures forall l :: l in r <==> l in xs && l != ""
    ensures forall i :: 0 <= i < |r| ==> r[i] != ""
    ensures |r| <= |xs|
  {
    if xs == [] then []
    else (if xs[0] == "" then [] else [xs[0]]) + NonEmpty(xs[1..])
  }

  /** The filter keeps every non-empty line as often as it occurs, and no empty one. */
  lemma {:induction false} NonEmptyCounts(xs: seq<string>)
    ensures multiset(NonEmpty(xs)) == multiset(xs)["" := 0]
  {
    if xs != [] {
      assert xs == [xs[0]] + xs[1..];
      NonEmptyCounts(xs[1..]);
    }
  }

  /** Filtering a concatenation filters each part in place. */
  lemma {:induction false} NonEmptyAppend(xs: seq<string>, ys: seq<string>)
    ensures NonEmpty(xs + ys) == NonEmpty(xs) + NonEmpty(ys)
  {
    if xs == [] {
      assert xs + ys == ys;
    } else {
      assert (xs + ys)[1..] == xs[1..] + ys;
      NonEmptyAppend(xs[1..], ys);
    }
  }

  /** Lines that are all non-empty pass the filter unchanged. */
  lemma {:induction false} NonEmptyKeepsAll(xs: seq<string>)
    requires forall i :: 0 <= i < |xs| ==> xs[i] != ""
    ensures NonEmpty(xs) == xs
  {
    if xs != [] {
      NonEmptyKeepsAll(xs[1..]);
    }
  }

  /** What the quote text reads from the selection and the derived view. */
  datatype QuoteInput = QuoteInput(
    form: Contact,
    firstStageName: string,
    lastStageName: string,
    totalKm: nat,
    totalNights: nat,
    modeLabel: Option<string>,
    hotelLabel: Option<string>,
    startDate: string,
    rooms: Rooms,
    passengers: nat,
    ebike: bool,
    bikeName: Option<string>,
    addonsText: string,
    transferIn: Transfer,
    transferOut: Transfer,
    total: nat)

  /** The values `buildQuoteBody` reads, from the selection and the derived view. */
  function InputOf(d: TourData, s: Selection): QuoteInput
    requires InRange(d, s)
  {
    QuoteInput(
      s.form,
      d.stages[s.firstStage].name,
      d.stages[s.lastStage].name,
      TotalKm(Active(d, s)),
      Nights(d, s),
      match FindMode(d.modes, s.travelMode) case Some(m) => Some(m.caption) case None => None,
      match FindHotel(d.hotels, s.hotelCat) case Some(c) => Some(c.caption) case None => None,
      s.startDate,
      s.rooms,
      Passengers(s),
      s.travelMode == "ebike",
      match FindBike(d.bikes, s.selectedBike) case Some(b) => Some(b.name) case None => None,
      AddonsText(d.addons, s.selectedAddons),
      s.transferIn,
      s.transferOut,
      EstimatedTotal(d, s))
  }

  function AddonsLine(q: QuoteInput): string
  {
    "Add-ons: " + q.addonsText
  }

  function TotalLine(q: QuoteInput): string
  {
    "Estimated Total: €" + Grouped(q.total)
  }

  function RoomsText(r: Rooms): string
  {
    "Single(" + Decimal(r.single) + ") Twin(" + Decimal(r.twin) + ") Double(" + Decimal(r.double) + ")"
  }

  /** The lines of `buildQuoteBody` before `filter(Boolean)`. */
  function RawLines(q: QuoteInput): (r: seq<string>)
    ensures |r| == 20
  {
    [ "Name: " + q.form.name,
      "Email: " + q.form.email,
      "Phone: " + q.form.phone,
      "",
      "--- Trip Details ---",
      "Route: " + (q.firstStageName + " → " + q.lastStageName),
      "Distance: " + (Decimal(q.totalKm) + " km | Nights: " + Decimal(q.totalNights)),
      "Travel Mode: " + OrUndefined(q.modeLabel),
      "Hotel: " + OrUndefined(q.hotelLabel),
      "Start Date: " + (if q.startDate == "" then "TBD" else q.startDate),
      "Rooms: " + RoomsText(q.rooms),
      "Travellers: " + Decimal(q.passengers),
      if q.ebike then "E-Bike: " + OrUndefined(q.bikeName) else "",
      "",
      AddonsLine(q),
      if q.transferIn.enabled then "Transfer In: " + (q.transferIn.place + " → " + q.firstStageName) else "",
      if q.transferOut.enabled then "Transfer Out: " + (q.lastStageName + " → " + q.transferOut.place) else "",
      "",
      TotalLine(q),
      if q.form.notes != "" then "\nNotes: " + q.form.notes else "" ]
  }

  /** A line that starts with a different tag is not tagged with `tag`. */
  lemma TagDiffers(tag: string, other: string, rest: string, i: nat)
    requires i < |tag| && i < |other| && tag[i] != other[i]
    ensures !(tag <= other + rest)
  {
    assert (other + rest)[i] == other[i];
  }

  /** Only the line at position `own` of the raw lines can carry `tag`. */
  predicate OnlyLineTagged(raw: seq<string>, tag: string, own: nat)
  {
    forall j :: 0 <= j < |raw| && j != own ==> !(tag <= raw[j])
  }

  /** The fixed head of each raw line, in order; "" for the lines that are always blank. */
  function Heads(): (r: seq<string>)
    ensures |r| == 20
  {
    [ "Name: ", "Email: ", "Phone: ", "", "--- Trip Details ---", "Route: ", "Distance: ",
      "Travel Mode: ", "Hotel: ", "Start Date: ", "Rooms: ", "Travellers: ", "E-Bike: ", "",
      "Add-ons: ", "Transfer In: ", "Transfer Out: ", "", "Estimated Total: €", "\nNotes: " ]
  }

  /** A string starts with itself. */
  lemma PrefixConcat(a: string, b: string)
    ensures a <= a + b
  {
    assert (a + b)[..|a|] == a;
  }

  /** Lines 0-4, the contact lines and the trip-details header, are blank or start with their heads. */
  lemma RawHeadsContact(q: QuoteInput)
    ensures forall j :: 0 <= j < 5 ==> RawLines(q)[j] == "" || Heads()[j] <= RawLines(q)[j]
    ensures forall j :: 0 <= j < 5 && Heads()[j] == "" ==> RawLines(q)[j] == ""
  {
    var raw, heads := RawLines(q), Heads();
    forall j | 0 <= j < 5
      ensures (raw[j] == "" || heads[j] <= raw[j]) && (heads[j] == "" ==> raw[j] == "")
    {
      if j == 0 {
        PrefixConcat(heads[0], q.form.name);
      } else if j == 1 {
        PrefixConcat(heads[1], q.form.email);
      } else if j == 2 {
        PrefixConcat(heads[2], q.form.phone);
      } else if j == 4 {
        assert raw[4] == heads[4] + "";
        PrefixConcat(heads[4], "");
      } else {
        assert raw[j] == "" && heads[j] == "";
      }
    }
  }

  /** Lines 5-9, route to start date, start with their heads. */
  lemma RawHeadsTrip(q: QuoteInput)
    ensures forall j :: 5 <= j < 10 ==> RawLines(q)[j] == "" || Heads()[j] <= RawLines(q)[j]
    ensures forall j :: 5 <= j < 10 ==> Heads()[j] != ""
  {
    var raw, heads := RawLines(q), Heads();
    forall j | 5 <= j < 10
      ensures (raw[j] == "" || heads[j] <= raw[j]) && heads[j] != ""
    {
      if j == 5 {
        PrefixConcat(heads[5], (q.firstStageName + " → " + q.lastStageName));
      } else if j == 6 {
        PrefixConcat(heads[6], (Decimal(q.totalKm) + " km | Nights: " + Decimal(q.totalNights)));
      } else if j == 7 {
        PrefixConcat(heads[7], OrUndefined(q.modeLabel));
      } else if j == 8 {
        PrefixConcat(heads[8], OrUndefined(q.hotelLabel));
      } else {
        PrefixConcat(heads[9], (if q.startDate == "" then "TBD" else q.startDate));
      }
    }
  }

  /** Lines 10-19 are blank or start with their heads. */
  lemma RawHeadsExtras(q: QuoteInput)
    ensures forall j :: 10 <= j < 20 ==> RawLines(q)[j] == "" || Heads()[j] <= RawLines(q)[j]
    ensures forall j :: 10 <= j < 20 && Heads()[j] == "" ==> RawLines(q)[j] == ""
  {
    var raw, heads := RawLines(q), Heads();
    forall j | 10 <= j < 20
      ensures (raw[j] == "" || heads[j] <= raw[j]) && (heads[j] == "" ==> raw[j] == "")
    {
      if j == 10 {
        PrefixConcat(heads[10], RoomsText(q.rooms));
      } else if j == 11 {
        PrefixConcat(heads[11], Decimal(q.passengers));
      } else if j == 12 {
        PrefixConcat(heads[12], OrUndefined(q.bikeName));
      } else if j == 14 {
        PrefixConcat(heads[14], q.addonsText);
      } else if j == 15 {
        PrefixConcat(heads[15], (q.transferIn.place + " → " + q.firstStageName));
      } else if j == 16 {
        PrefixConcat(heads[16], (q.lastStageName + " → " + q.transferOut.place));
      } else if j == 18 {
        PrefixConcat(heads[18], Grouped(q.total));
      } else if j == 19 {
        PrefixConcat(heads[19], q.form.notes);
      } else {
        assert raw[j] == "" && heads[j] == "";
      }
    }
  }

  /** Every raw line is blank or starts with its head, and the blank heads give blank lines. */
  lemma RawHeads(q: QuoteInput)
    ensures forall j :: 0 <= j < 20 ==> RawLines(q)[j] == "" || Heads()[j] <= RawLines(q)[j]
    ensures forall j :: 0 <= j < 20 && Heads()[j] == "" ==> RawLines(q)[j] == ""
  {
    RawHeadsContact(q);
    RawHeadsTrip(q);
    RawHeadsExtras(q);
  }

  /**
   * The line at `own` is the only one whose head can start with its tag, when
   * `at[j]` is a position where the tag and the head of line `j` differ.
   */
  lemma HeadsTagged(q: QuoteInput, own: nat, at: seq<nat>)
    requires own < 20 && |at| == 20 && Heads()[own] != ""
    requires forall j :: 0 <= j < 20 && j != own && Heads()[j] != "" ==>
      at[j] < |Heads()[own]| && at[j] < |Heads()[j]| && Heads()[own][at[j]] != Heads()[j][at[j]]
    ensures OnlyLineTagged(RawLines(q), Heads()[own], own)
  {
    var raw, heads := RawLines(q), Heads();
    var tag := heads[own];
    RawHeads(q);
    forall j | 0 <= j < |raw| && j != own
      ensures !(tag <= raw[j])
    {
      if raw[j] != "" {
        var rest := raw[j][|heads[j]|..];
        assert raw[j] == heads[j] + rest;
        TagDiffers(tag, heads[j], rest, at[j]);
      }
    }
  }

  /** No line but the e-bike line starts with its tag; that one does exactly in e-bike mode. */
  lemma OnlyEbikeLineTagged(q: QuoteInput)
    ensures OnlyLineTagged(RawLines(q), "E-Bike: ", 12)
    ensures "E-Bike: " <= RawLines(q)[12] <==> q.ebike
  {
    HeadsTagged(q, 12, [0, 1, 0, 0, 0, 0, 0, 0, 0, 0, 0, 0, 0, 0, 0, 0, 0, 0, 1, 0]);
    if q.ebike {
      assert RawLines(q)[12] == "E-Bike: " + OrUndefined(q.bikeName);
    }
  }

  /** No line but the inbound transfer line starts with its tag; that one does exactly when enabled. */
  lemma OnlyTransferInLineTagged(q: QuoteInput)
    ensures OnlyLineTagged(RawLines(q), "Transfer In: ", 15)
    ensures "Transfer In: " <= RawLines(q)[15] <==> q.transferIn.enabled
  {
    HeadsTagged(q, 15, [0, 0, 0, 0, 0, 0, 0, 3, 0, 0, 0, 3, 0, 0, 0, 0, 9, 0, 0, 0]);
    if q.transferIn.enabled {
      assert RawLines(q)[15] == "Transfer In: " + (q.transferIn.place + " → " + q.firstStageName);
    }
  }

  /** No line but the outbound transfer line starts with its tag; that one does exactly when enabled. */
  lemma OnlyTransferOutLineTagged(q: QuoteInput)
    ensures OnlyLineTagged(RawLines(q), "Transfer Out: ", 16)
    ensures "Transfer Out: " <= RawLines(q)[16] <==> q.transferOut.enabled
  {
    HeadsTagged(q, 16, [0, 0, 0, 0, 0, 0, 0, 3, 0, 0, 0, 3, 0, 0, 0, 9, 0, 0, 0, 0]);
    if q.transferOut.enabled {
      assert RawLines(q)[16] == "Transfer Out: " + (q.lastStageName + " → " + q.transferOut.place);
    }
  }

  /** The quote text's lines: none is empty. */
  function QuoteLines(d: TourData, s: Selection): (r: seq<string>)
    requires InRange(d, s)
    ensures forall i :: 0 <= i < |r| ==> r[i] != ""
    ensures |r| <= 20
  {
    var raw := RawLines(InputOf(d, s));
    NonEmpty(raw)
  }

  /** A single line after the filter. */
  function Keep(x: string): (r: seq<string>)
    ensures r == NonEmpty([x])
  {
    if x == "" then [] else [x]
  }

  /** The filter from position `i` on keeps or drops the line at `i`, then goes on. */
  lemma NonEmptyFrom(xs: seq<string>, i: nat)
    requires i < |xs|
    ensures NonEmpty(xs[i..]) == Keep(xs[i]) + NonEmpty(xs[i + 1..])
  {
    assert xs[i..][1..] == xs[i + 1..];
  }

  /** Lines 0-11: the three contact lines and the eight trip-detail lines pass, the blank between them does not. */
  lemma FilterOpening(raw: seq<string>)
    requires |raw| == 20 && raw[3] == ""
    requires forall i :: 0 <= i < 3 || 4 <= i < 12 ==> raw[i] != ""
    ensures NonEmpty(raw) == raw[..3] + raw[4..12] + NonEmpty(raw[12..])
  {
    var p := raw[..12];
    assert raw == p + raw[12..];
    NonEmptyAppend(p, raw[12..]);
    FilterContact(p);
    assert p[..3] == raw[..3] && p[4..] == raw[4..12];
  }

  /** Twelve lines with only line 3 blank lose just that line. */
  lemma FilterContact(p: seq<string>)
    requires |p| == 12 && p[3] == ""
    requires forall i :: 0 <= i < 3 || 4 <= i < 12 ==> p[i] != ""
    ensures NonEmpty(p) == p[..3] + p[4..]
  {
    var a, b := p[..3], p[4..];
    assert NonEmpty(a) == a by {
      assert forall i :: 0 <= i < |a| ==> a[i] == p[i];
      NonEmptyKeepsAll(a);
    }
    assert NonEmpty(b) == b by {
      assert forall i :: 0 <= i < |b| ==> b[i] == p[i + 4];
      NonEmptyKeepsAll(b);
    }
    assert NonEmpty(p[3..]) == NonEmpty(b) by {
      NonEmptyFrom(p, 3);
      assert Keep(p[3]) == [];
    }
    assert NonEmpty(p) == NonEmpty(a) + NonEmpty(p[3..]) by {
      assert p == a + p[3..];
      NonEmptyAppend(a, p[3..]);
    }
  }

  /** Lines 12-19: the fixed blanks are dropped, each optional line kept when set. */
  lemma FilterClosing(raw: seq<string>)
    requires |raw| == 20 && raw[13] == "" && raw[17] == "" && raw[14] != "" && raw[18] != ""
    ensures NonEmpty(raw[12..])
      == Keep(raw[12]) + ([raw[14]] + (Keep(raw[15]) + (Keep(raw[16]) + ([raw[18]] + Keep(raw[19])))))
  {
    assert raw[20..] == [];
    NonEmptyFrom(raw, 19);
    NonEmptyFrom(raw, 18);
    NonEmptyFrom(raw, 17);
    NonEmptyFrom(raw, 16);
    NonEmptyFrom(raw, 15);
    NonEmptyFrom(raw, 14);
    NonEmptyFrom(raw, 13);
    NonEmptyFrom(raw, 12);
  }

  /** The filtered raw lines, as the quote fields decide them. */
  lemma RawLayout(q: QuoteInput)
    ensures var raw := RawLines(q);
      NonEmpty(raw) == raw[..3] + raw[4..12]
        + ((if q.ebike then [raw[12]] else [])
        + ([raw[14]]
        + ((if q.transferIn.enabled then [raw[15]] else [])
        + ((if q.transferOut.enabled then [raw[16]] else [])
        + ([raw[18]]
        + (if q.form.notes != "" then [raw[19]] else []))))))
  {
    var raw := RawLines(q);
    RawBlanks(q);
    FilterOpening(raw);
    FilterClosing(raw);
  }

  /** Which raw lines are blank: lines 3, 13 and 17 always, each optional line exactly when unset. */
  lemma RawBlanks(q: QuoteInput)
    ensures var raw := RawLines(q);
      raw[3] == "" && raw[13] == "" && raw[17] == ""
      && (forall i :: 0 <= i < 3 || 4 <= i < 12 || i == 14 || i == 18 ==> raw[i] != "")
      && (q.ebike <==> raw[12] != "")
      && (q.transferIn.enabled <==> raw[15] != "")
      && (q.transferOut.enabled <==> raw[16] != "")
      && (q.form.notes != "" <==> raw[19] != "")
  {
    RawFixedLines(q);
    RawOptionalLines(q);
  }

  /** Lines 3, 13 and 17 are blank; the contact, trip-detail, add-ons and total lines are not. */
  lemma RawFixedLines(q: QuoteInput)
    ensures var raw := RawLines(q);
      raw[3] == "" && raw[13] == "" && raw[17] == ""
      && (forall i :: 0 <= i < 3 || 4 <= i < 12 || i == 14 || i == 18 ==> raw[i] != "")
  {
    var raw := RawLines(q);
    forall i | 0 <= i < 3 || 4 <= i < 12 || i == 14 || i == 18
      ensures raw[i] != ""
    {
      assert |raw[i]| > 0;
    }
  }

  /** Each optional line is blank exactly when its setting is off. */
  lemma RawOptionalLines(q: QuoteInput)
    ensures var raw := RawLines(q);
      (q.ebike <==> raw[12] != "")
      && (q.transferIn.enabled <==> raw[15] != "")
      && (q.transferOut.enabled <==> raw[16] != "")
      && (q.form.notes != "" <==> raw[19] != "")
  {
    var raw := RawLines(q);
    assert q.ebike ==> |raw[12]| > 0;
    assert q.transferIn.enabled ==> |raw[15]| > 0;
    assert q.transferOut.enabled ==> |raw[16]| > 0;
    assert q.form.notes != "" ==> |raw[19]| > 0;
  }

  /** The first eleven lines after the filter are raw lines 0-2 and 4-11. */
  lemma RawOpening(q: QuoteInput)
    ensures var r, raw := NonEmpty(RawLines(q)), RawLines(q);
      |r| >= 13 && (forall i :: 0 <= i < 3 ==> r[i] == raw[i]) && (forall i :: 3 <= i < 11 ==> r[i] == raw[i + 1])
  {
    RawLayout(q);
  }

  /**
   * The quote's lines in order: contact, trip details, the e-bike line in e-bike
   * mode only, the add-ons, each enabled transfer, the total, and the notes when given.
   */
  lemma QuoteLayout(d: TourData, s: Selection)
    requires InRange(d, s)
    ensures var raw := RawLines(InputOf(d, s));
      QuoteLines(d, s) == raw[..3] + raw[4..12]
        + ((if s.travelMode == "ebike" then [raw[12]] else [])
        + ([raw[14]]
        + ((if s.transferIn.enabled then [raw[15]] else [])
        + ((if s.transferOut.enabled then [raw[16]] else [])
        + ([raw[18]]
        + (if s.form.notes != "" then [raw[19]] else []))))))
  {
    var q := InputOf(d, s);
    RawLayout(q);
  }

  /** The filter ends with line 18, followed by line 19 when that one is not blank. */
  lemma FilterEnding(raw: seq<string>)
    requires |raw| == 20 && raw[18] != ""
    ensures var r := NonEmpty(raw);
      |r| >= 1
      && (raw[19] == "" ==> r[|r| - 1] == raw[18])
      && (raw[19] != "" ==> |r| >= 2 && r[|r| - 1] == raw[19] && r[|r| - 2] == raw[18])
  {
    assert raw == raw[..18] + raw[18..];
    NonEmptyAppend(raw[..18], raw[18..]);
    NonEmptyFrom(raw, 18);
    NonEmptyFrom(raw, 19);
    assert raw[20..] == [];
  }

  /** The lines `r` end with `total`, followed only by the notes line when `notes` are given. */
  predicate EndsWithTotal(r: seq<string>, total: string, notes: string)
  {
    |r| >= 1
    && (notes == "" ==> r[|r| - 1] == total)
    && (notes != "" ==> |r| >= 2 && r[|r| - 1] == "\nNotes: " + notes && r[|r| - 2] == total)
  }

  /** The filtered lines end with the total line, followed by the notes line when notes are given. */
  lemma RawEnding(q: QuoteInput)
    ensures EndsWithTotal(NonEmpty(RawLines(q)), TotalLine(q), q.form.notes)
  {
    var raw := RawLines(q);
    assert raw[18] == TotalLine(q) && |raw[18]| > 0;
    assert raw[19] == if q.form.notes != "" then "\nNotes: " + q.form.notes else "";
    FilterEnding(raw);
  }

  /** The trip-details lines quote the route's end stages, the distance, the nights and the travellers. */
  lemma QuoteTripDetails(d: TourData, s: Selection)
    requires InRange(d, s)
    ensures |QuoteLines(d, s)| >= 13
    ensures QuoteLines(d, s)[0] == "Name: " + s.form.name
    ensures QuoteLines(d, s)[3] == "--- Trip Details ---"
    ensures QuoteLines(d, s)[4] == "Route: " + (d.stages[s.firstStage].name + " → " + d.stages[s.lastStage].name)
    ensures QuoteLines(d, s)[5]
      == "Distance: " + (Decimal(TotalKm(Active(d, s))) + " km | Nights: " + Decimal(Nights(d, s)))
    ensures QuoteLines(d, s)[10] == "Travellers: " + Decimal(Passengers(s))
  {
    var q := InputOf(d, s);
    assert q.firstStageName == d.stages[s.firstStage].name && q.lastStageName == d.stages[s.lastStage].name;
    assert q.totalKm == TotalKm(Active(d, s)) && q.totalNights == Nights(d, s);
    assert q.passengers == Passengers(s) && q.form == s.form;
    assert QuoteLines(d, s) == NonEmpty(RawLines(q));
    RawDetails(q);
  }

  /** The contact name, the header, route, distance and travellers lines of the filtered quote input. */
  lemma RawDetails(q: QuoteInput)
    ensures var r := NonEmpty(RawLines(q));
      |r| >= 13
      && r[0] == "Name: " + q.form.name
      && r[3] == "--- Trip Details ---"
      && r[4] == "Route: " + (q.firstStageName + " → " + q.lastStageName)
      && r[5] == "Distance: " + (Decimal(q.totalKm) + " km | Nights: " + Decimal(q.totalNights))
      && r[10] == "Travellers: " + Decimal(q.passengers)
  {
    RawOpening(q);
  }

  /** The quote ends with the estimated total, followed only by the notes when they are given. */
  lemma QuoteEnding(d: TourData, s: Selection)
    requires InRange(d, s)
    ensures EndsWithTotal(QuoteLines(d, s), "Estimated Total: €" + Grouped(EstimatedTotal(d, s)), s.form.notes)
  {
    var q := InputOf(d, s);
    assert QuoteLines(d, s) == NonEmpty(RawLines(q));
    RawEnding(q);
    assert TotalLine(q) == "Estimated Total: €" + Grouped(EstimatedTotal(d, s)) by {
      assert q.total == EstimatedTotal(d, s);
    }
    assert q.form == s.form;
  }

  /** A line of the quote carries `tag` exactly when the raw line at `own` does. */
  lemma TaggedLineInQuote(raw: seq<string>, tag: string, own: nat)
    requires own < |raw| && OnlyLineTagged(raw, tag, own) && tag != ""
    ensures (exists l :: l in NonEmpty(raw) && tag <= l) <==> tag <= raw[own]
  {
    if tag <= raw[own] {
      assert raw[own] in NonEmpty(raw);
    }
  }

  /** The e-bike line is in the quote exactly in e-bike mode. */
  lemma EbikeLineOnlyInEbikeMode(d: TourData, s: Selection)
    requires InRange(d, s)
    ensures (exists l :: l in QuoteLines(d, s) && "E-Bike: " <= l) <==> s.travelMode == "ebike"
  {
    var q := InputOf(d, s);
    OnlyEbikeLineTagged(q);
    TaggedLineInQuote(RawLines(q), "E-Bike: ", 12);
  }

  /** The inbound transfer line is in the quote exactly when that transfer is enabled. */
  lemma TransferInLineOnlyWhenEnabled(d: TourData, s: Selection)
    requires InRange(d, s)
    ensures (exists l :: l in QuoteLines(d, s) && "Transfer In: " <= l) <==> s.transferIn.enabled
  {
    var q := InputOf(d, s);
    OnlyTransferInLineTagged(q);
    TaggedLineInQuote(RawLines(q), "Transfer In: ", 15);
  }

  /** The outbound transfer line is in the quote exactly when that transfer is enabled. */
  lemma TransferOutLineOnlyWhenEnabled(d: TourData, s: Selection)
    requires InRange(d, s)
    ensures (exists l :: l in QuoteLines(d, s) && "Transfer Out: " <= l) <==> s.transferOut.enabled
  {
    var q := InputOf(d, s);
    OnlyTransferOutLineTagged(q);
    TaggedLineInQuote(RawLines(q), "Transfer Out: ", 16);
  }

  /** With no add-on checked the quote's add-ons line reads "None". */
  lemma NoAddonsQuotedAsNone(d: TourData, s: Selection)
    requires InRange(d, s)
    requires forall i :: 0 <= i < |s.selectedAddons| ==> !s.selectedAddons[i].on
    ensures "Add-ons: None" in QuoteLines(d, s)
  {
    var q := InputOf(d, s);
    var raw := RawLines(q);
    assert raw[14] == "Add-ons: None";
    assert raw[14] in raw;
  }

  /** The estimated total is always quoted. */
  lemma TotalAlwaysQuoted(d: TourData, s: Selection)
    requires InRange(d, s)
    ensures "Estimated Total: €" + Grouped(EstimatedTotal(d, s)) in QuoteLines(d, s)
  {
    var q := InputOf(d, s);
    var raw := RawLines(q);
    assert raw[18] == TotalLine(q);
    assert raw[18] in raw;
  }
}
