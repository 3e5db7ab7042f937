/** The font records of a directory listing, the sample-text rule, the near-visible
    window and the requests one pass of the lazy preview scheduler issues. */
module Samples {
  import opened Text

  /** Preview size, part of every sample request, and the sample text used when the
      user submits nothing. */
  const SampleWidth: nat := 380
  const SampleHeight: nat := 50
  const DefaultSampleText: string := "Sample text"

  /** How many viewport heights above and below the visible area are pre-warmed. */
  const Extent: int := 1

  /** One entry of a directory scan, as the server reports it. */
  datatype Listed = Listed(id: string, filename: string)

  /** A directory-sourced font: its server id and file name, whether its display name
      has arrived, and whether a preview image has loaded since the samples were last
      marked out of date (not necessarily the image of the current sample text: an image
      requested before a submit may load after it). */
  datatype Font = Font(id: string, filename: string, hasName: bool, sampleUpToDate: bool)

  /** The window's scroll position and height, in whole pixels. */
  datatype Viewport = Viewport(scrollTop: int, height: int)

  // ----- Sample text -----

  /** A sample text the controller can hold: non-empty, and neither starting nor ending
      with white space (so it is its own trim, by `TrimKeeps`). */
  predicate IsSampleText(t: string) {
    t != [] && !IsSpace(t[0]) && !IsSpace(t[|t| - 1])
  }

  lemma DefaultIsSampleText()
    ensures IsSampleText(DefaultSampleText)
  {
    assert DefaultSampleText[0] == 'S';
    assert DefaultSampleText[|DefaultSampleText| - 1] == 't';
  }

  /** The sample text chosen for a submitted input: the trimmed input, or the default when
      nothing but white space was submitted. */
  function SampleTextFor(input: string): (r: string)
    ensures IsSampleText(r)
  {
    var t := Trim(input);
    if t != [] then
      t
    else
      DefaultIsSampleText();
      DefaultSampleText
  }

  /** Input that is all white space selects the default text. */
  lemma SampleTextDefault(input: string)
    requires AllSpace(input)
    ensures SampleTextFor(input) == DefaultSampleText
  {
    TrimEmpty(input);
  }

  /** Any other input selects the input trimmed, which is not empty (what trimming keeps
      is described by `TrimIsSlice`). */
  lemma SampleTextTrimmed(input: string)
    requires !AllSpace(input)
    ensures SampleTextFor(input) == Trim(input) && Trim(input) != []
  {
    TrimEmpty(input);
  }

  /** Submitting the current sample text again keeps it. */
  lemma {:induction false} SampleTextForStable(input: string)
    ensures SampleTextFor(SampleTextFor(input)) == SampleTextFor(input)
  {
    var r := SampleTextFor(input);
    TrimKeeps(r);
  }

  // ----- The near-visible window -----

  /** A list item at vertical page offset `offset` is near-visible when its position
      relative to the top of the viewport lies in [-Extent*h, (1+Extent)*h], both ends
      included. */
  predicate NearVisible(offset: int, w: Viewport)
    ensures NearVisible(offset, w) ==> w.height >= 0
  {
    var y := offset - w.scrollTop;
    -Extent * w.height <= y && y <= (1 + Extent) * w.height
  }

  /** With Extent = 1 the window is one viewport height above the visible area through
      one below it; both boundary offsets qualify and the next pixel out does not. */
  lemma NearVisibleBounds(offset: int, w: Viewport)
    ensures NearVisible(offset, w) <==>
      w.scrollTop - w.height <= offset <= w.scrollTop + 2 * w.height
    ensures w.height >= 0 ==>
      NearVisible(w.scrollTop - w.height, w) && NearVisible(w.scrollTop + 2 * w.height, w) &&
      !NearVisible(w.scrollTop - w.height - 1, w) && !NearVisible(w.scrollTop + 2 * w.height + 1, w)
    ensures w.height >= 0 && w.scrollTop <= offset < w.scrollTop + w.height ==> NearVisible(offset, w)
  {
  }

  // ----- Requests -----

  /** A fetch issued by a pass, for the font at index `font` of the listing: its display
      name, or its preview image. `url` is the request path. */
  datatype Request = NameFetch(font: nat, url: string) | SampleFetch(font: nat, url: string)

  /** Position of a request in list order: a font's name request comes before its sample
      request, and both before those of the next font. */
  function Rank(r: Request): nat {
    match r
    case NameFetch(i, _) => 2 * i
    case SampleFetch(i, _) => 2 * i + 1
  }

  /** Requests strictly ascending in list order, all of them for fonts below `bound / 2`. */
  predicate InOrder(r: seq<Request>, bound: nat) {
    (forall p :: 0 <= p < |r| ==> Rank(r[p]) < bound) &&
    (forall p, q :: 0 <= p < q < |r| ==> Rank(r[p]) < Rank(r[q]))
  }

  /** `["fontname", id].join("/")`: the request path for a font's display name. */
  function NameKey(id: string): (r: string)
    ensures r == "fontname/" + id
  {
    assert ["fontname", id][1..] == [id];
    assert Join([id], '/') == id;
    assert "fontname" + ['/'] == "fontname/";
    Join(["fontname", id], '/')
  }

  /** `join` writes the preview size as "380" and "50". */
  lemma SizeNumerals()
    ensures NatToString(SampleWidth) == "380" && NatToString(SampleHeight) == "50"
  {
    assert NatToString(3) == "3";
    assert NatToString(38) == "38";
    assert NatToString(5) == "5";
  }

  /** `["sample", id, 380, 50, encode(text)].join("/")`: the request path for a preview
      image; `encode` stands for `encodeURIComponent`. */
  function SampleKey(id: string, text: string, encode: string -> string): (r: string)
    ensures r == "sample/" + id + "/380/50/" + encode(text)
  {
    SizeNumerals();
    var e := encode(text);
    assert Join([e], '/') == e;
    assert Join(["50", e], '/') == "50" + ['/'] + e by { assert ["50", e][1..] == [e]; }
    assert Join(["380", "50", e], '/') == "380" + ['/'] + Join(["50", e], '/') by {
      assert ["380", "50", e][1..] == ["50", e];
    }
    assert Join([id, "380", "50", e], '/') == id + ['/'] + Join(["380", "50", e], '/') by {
      assert [id, "380", "50", e][1..] == ["380", "50", e];
    }
    assert Join(["sample", id, "380", "50", e], '/') == "sample" + ['/'] + Join([id, "380", "50", e], '/') by {
      assert ["sample", id, "380", "50", e][1..] == [id, "380", "50", e];
    }
    assert "sample" + ['/'] == "sample/";
    assert ['/'] + "380" + ['/'] + "50" + ['/'] == "/380/50/";
    Join(["sample", id, NatToString(SampleWidth), NatToString(SampleHeight), e], '/')
  }

  /** The server can take a name request apart again: it names the font id it was built from. */
  lemma NameKeyRoundTrip(id: string)
    requires '/' !in id
    ensures Split(NameKey(id), '/') == ["fontname", id]
  {
    SplitJoin(["fontname", id], '/');
  }

  /** The server can take a sample request apart again: id, width 380, height 50 and the
      encoded text, as long as neither the id nor the encoded text holds a '/'
      (`encodeURIComponent` never leaves one). */
  lemma SampleKeyRoundTrip(id: string, text: string, encode: string -> string)
    requires '/' !in id && '/' !in encode(text)
    ensures var parts := Split(SampleKey(id, text, encode), '/');
      |parts| == 5 && parts[0] == "sample" && parts[1] == id &&
      DecimalValue(parts[2]) == SampleWidth && DecimalValue(parts[3]) == SampleHeight &&
      parts[4] == encode(text)
  {
    var parts := ["sample", id, NatToString(SampleWidth), NatToString(SampleHeight), encode(text)];
    SplitJoin(parts, '/');
    DecimalRoundTrip(SampleWidth);
    DecimalRoundTrip(SampleHeight);
  }

  /** The requests for one near-visible font at index `i`: its name when it has none, then
      its sample when the preview is out of date. */
  function FontRequests(i: nat, f: Font, text: string, encode: string -> string): (r: seq<Request>)
    ensures |r| == (if f.hasName then 0 else 1) + (if f.sampleUpToDate then 0 else 1)
    ensures forall p :: 0 <= p < |r| ==> r[p].font == i
  {
    (if !f.hasName then [NameFetch(i, NameKey(f.id))] else []) +
    (if !f.sampleUpToDate then [SampleFetch(i, SampleKey(f.id, text, encode))] else [])
  }

  /** The requests a pass issues for the first `n` fonts of a listing laid out at `offsets`:
      the near-visible ones, in list order. */
  function Scheduled(fonts: seq<Font>, offsets: seq<int>, w: Viewport, text: string,
                     encode: string -> string, n: nat): (r: seq<Request>)
    requires n <= |fonts| == |offsets|
    ensures |r| <= 2 * n
  {
    if n == 0 then []
    else
      Scheduled(fonts, offsets, w, text, encode, n - 1) +
      (if NearVisible(offsets[n - 1], w) then FontRequests(n - 1, fonts[n - 1], text, encode) else [])
  }

  /** The requests of a whole pass. */
  function PassRequests(fonts: seq<Font>, offsets: seq<int>, w: Viewport, text: string,
                        encode: string -> string): (r: seq<Request>)
    requires |fonts| == |offsets|
    ensures |r| <= 2 * |fonts|
  {
    Scheduled(fonts, offsets, w, text, encode, |fonts|)
  }

  /** A name request for font `i` is issued exactly when `i` is near-visible and has no
      name yet, and its path is the font's name key. */
  lemma {:induction false} ScheduledName(fonts: seq<Font>, offsets: seq<int>, w: Viewport, text: string,
                                         encode: string -> string, n: nat, i: nat, url: string)
    requires n <= |fonts| == |offsets|
    ensures NameFetch(i, url) in Scheduled(fonts, offsets, w, text, encode, n) <==>
      i < n && NearVisible(offsets[i], w) && !fonts[i].hasName && url == NameKey(fonts[i].id)
  {
    if n > 0 {
      ScheduledName(fonts, offsets, w, text, encode, n - 1, i, url);
    }
  }

  /** A sample request for font `i` is issued exactly when `i` is near-visible and its
      preview is out of date, and its path carries the text current at pass time. */
  lemma {:induction false} ScheduledSample(fonts: seq<Font>, offsets: seq<int>, w: Viewport, text: string,
                                           encode: string -> string, n: nat, i: nat, url: string)
    requires n <= |fonts| == |offsets|
    ensures SampleFetch(i, url) in Scheduled(fonts, offsets, w, text, encode, n) <==>
      i < n && NearVisible(offsets[i], w) && !fonts[i].sampleUpToDate && url == SampleKey(fonts[i].id, text, encode)
  {
    if n > 0 {
      ScheduledSample(fonts, offsets, w, text, encode, n - 1, i, url);
    }
  }

  lemma FontRequestsInOrder(i: nat, f: Font, text: string, encode: string -> string)
    ensures var t := FontRequests(i, f, text, encode);
      InOrder(t, 2 * i + 2) && forall p :: 0 <= p < |t| ==> 2 * i <= Rank(t[p])
  {
  }

  lemma ConcatInOrder(a: seq<Request>, b: seq<Request>, mid: nat, hi: nat)
    requires InOrder(a, mid) && InOrder(b, hi) && mid <= hi
    requires forall p :: 0 <= p < |b| ==> mid <= Rank(b[p])
    ensures InOrder(a + b, hi)
  {
    var r := a + b;
    forall p | 0 <= p < |r| ensures Rank(r[p]) < hi {
      if p >= |a| { assert r[p] == b[p - |a|]; }
    }
    forall p, q | 0 <= p < q < |r| ensures Rank(r[p]) < Rank(r[q]) {
      if q < |a| {
        assert r[p] == a[p] && r[q] == a[q];
      } else if p < |a| {
        assert r[p] == a[p] && r[q] == b[q - |a|];
      } else {
        assert r[p] == b[p - |a|] && r[q] == b[q - |a|];
      }
    }
  }

  /** Requests come in list order, with no font asked twice for the same thing. */
  lemma {:induction false} ScheduledInOrder(fonts: seq<Font>, offsets: seq<int>, w: Viewport, text: string,
                                            encode: string -> string, n: nat)
    requires n <= |fonts| == |offsets|
    ensures InOrder(Scheduled(fonts, offsets, w, text, encode, n), 2 * n)
  {
    if n > 0 {
      ScheduledInOrder(fonts, offsets, w, text, encode, n - 1);
      var prefix := Scheduled(fonts, offsets, w, text, encode, n - 1);
      if NearVisible(offsets[n - 1], w) {
        FontRequestsInOrder(n - 1, fonts[n - 1], text, encode);
        ConcatInOrder(prefix, FontRequests(n - 1, fonts[n - 1], text, encode), 2 * (n - 1), 2 * n);
      } else {
        assert Scheduled(fonts, offsets, w, text, encode, n) == prefix + [];
        ConcatInOrder(prefix, [], 2 * (n - 1), 2 * n);
      }
    }
  }

  /** A pass issues nothing exactly when every near-visible font has its name and an
      up-to-date sample. */
  lemma {:induction false} ScheduledNothing(fonts: seq<Font>, offsets: seq<int>, w: Viewport, text: string,
                                            encode: string -> string, n: nat)
    requires n <= |fonts| == |offsets|
    ensures Scheduled(fonts, offsets, w, text, encode, n) == [] <==>
      forall i :: 0 <= i < n && NearVisible(offsets[i], w) ==> fonts[i].hasName && fonts[i].sampleUpToDate
  {
    if n > 0 {
      ScheduledNothing(fonts, offsets, w, text, encode, n - 1);
    }
  }

  /** Requests that a pass over `fonts` issues that differ from those over `fonts'` only at
      index `i`: both passes agree on every request for another font. */
  lemma PassOthersAgree(fonts: seq<Font>, fonts': seq<Font>, offsets: seq<int>, w: Viewport,
                        text: string, encode: string -> string, i: nat, r: Request)
    requires |fonts| == |fonts'| == |offsets| && i < |fonts|
    requires forall k :: 0 <= k < |fonts| && k != i ==> fonts'[k] == fonts[k]
    requires r.font != i
    ensures r in PassRequests(fonts', offsets, w, text, encode) <==> r in PassRequests(fonts, offsets, w, text, encode)
  {
    match r
    case NameFetch(k, url) =>
      ScheduledName(fonts, offsets, w, text, encode, |fonts|, k, url);
      ScheduledName(fonts', offsets, w, text, encode, |fonts|, k, url);
    case SampleFetch(k, url) =>
      ScheduledSample(fonts, offsets, w, text, encode, |fonts|, k, url);
      ScheduledSample(fonts', offsets, w, text, encode, |fonts|, k, url);
  }

  /** After a name completes for font `i`, the next pass (nothing else changed) issues the
      same requests as before except that name request. */
  lemma NameCompletionRetiresRequest(fonts: seq<Font>, offsets: seq<int>, w: Viewport, text: string,
                                     encode: string -> string, i: nat, r: Request)
    requires |fonts| == |offsets| && i < |fonts|
    ensures var after := fonts[i := fonts[i].(hasName := true)];
      r in PassRequests(after, offsets, w, text, encode) <==>
      r in PassRequests(fonts, offsets, w, text, encode) && r != NameFetch(i, NameKey(fonts[i].id))
  {
    var after := fonts[i := fonts[i].(hasName := true)];
    if r.font != i {
      PassOthersAgree(fonts, after, offsets, w, text, encode, i, r);
    } else {
      match r
      case NameFetch(k, url) =>
        ScheduledName(fonts, offsets, w, text, encode, |fonts|, k, url);
        ScheduledName(after, offsets, w, text, encode, |fonts|, k, url);
      case SampleFetch(k, url) =>
        ScheduledSample(fonts, offsets, w, text, encode, |fonts|, k, url);
        ScheduledSample(after, offsets, w, text, encode, |fonts|, k, url);
    }
  }

  /** After a sample load completes for font `i`, the next pass issues the same requests as
      before except that sample request. */
  lemma SampleCompletionRetiresRequest(fonts: seq<Font>, offsets: seq<int>, w: Viewport, text: string,
                                       encode: string -> string, i: nat, r: Request)
    requires |fonts| == |offsets| && i < |fonts|
    ensures var after := fonts[i := fonts[i].(sampleUpToDate := true)];
      r in PassRequests(after, offsets, w, text, encode) <==>
      r in PassRequests(fonts, offsets, w, text, encode) && r != SampleFetch(i, SampleKey(fonts[i].id, text, encode))
  {
    var after := fonts[i := fonts[i].(sampleUpToDate := true)];
    if r.font != i {
      PassOthersAgree(fonts, after, offsets, w, text, encode, i, r);
    } else {
      match r
      case NameFetch(k, url) =>
        ScheduledName(fonts, offsets, w, text, encode, |fonts|, k, url);
        ScheduledName(after, offsets, w, text, encode, |fonts|, k, url);
      case SampleFetch(k, url) =>
        ScheduledSample(fonts, offsets, w, text, encode, |fonts|, k, url);
        ScheduledSample(after, offsets, w, text, encode, |fonts|, k, url);
    }
  }

  // ----- Whole-listing transitions -----

  /** The records made from a non-empty directory scan: same ids and file names, neither a
      name nor a sample yet. */
  function Listing(data: seq<Listed>): (r: seq<Font>)
    ensures |r| == |data|
    ensures forall k :: 0 <= k < |r| ==>
      r[k].id == data[k].id && r[k].filename == data[k].filename && !r[k].hasName && !r[k].sampleUpToDate
  {
    seq(|data|, k requires 0 <= k < |data| => Font(data[k].id, data[k].filename, false, false))
  }

  /** The records after a new sample text: every sample out of date, all else kept. */
  function Invalidated(fonts: seq<Font>): (r: seq<Font>)
    ensures |r| == |fonts|
    ensures forall k :: 0 <= k < |r| ==>
      r[k].id == fonts[k].id && r[k].filename == fonts[k].filename &&
      r[k].hasName == fonts[k].hasName && !r[k].sampleUpToDate
  {
    seq(|fonts|, k requires 0 <= k < |fonts| => fonts[k].(sampleUpToDate := false))
  }

  /** The first pass over a fresh listing asks for the name and the sample of every
      near-visible font, and for nothing else. */
  lemma FreshListingFetchesAll(data: seq<Listed>, offsets: seq<int>, w: Viewport, text: string,
                               encode: string -> string, i: nat)
    requires |data| == |offsets| && i < |data|
    ensures var r := PassRequests(Listing(data), offsets, w, text, encode);
      (NameFetch(i, NameKey(data[i].id)) in r <==> NearVisible(offsets[i], w)) &&
      (SampleFetch(i, SampleKey(data[i].id, text, encode)) in r <==> NearVisible(offsets[i], w))
  {
    var fonts := Listing(data);
    ScheduledName(fonts, offsets, w, text, encode, |fonts|, i, NameKey(data[i].id));
    ScheduledSample(fonts, offsets, w, text, encode, |fonts|, i, SampleKey(data[i].id, text, encode));
  }

  /** After a new sample text every near-visible font is re-sampled with that text, while
      name requests are the same as before. */
  lemma InvalidatedResamples(fonts: seq<Font>, offsets: seq<int>, w: Viewport, text: string,
                             encode: string -> string, i: nat, url: string)
    requires |fonts| == |offsets| && i < |fonts|
    ensures var r := PassRequests(Invalidated(fonts), offsets, w, text, encode);
      (SampleFetch(i, SampleKey(fonts[i].id, text, encode)) in r <==> NearVisible(offsets[i], w)) &&
      (NameFetch(i, url) in r <==> NameFetch(i, url) in PassRequests(fonts, offsets, w, text, encode))
  {
    var after := Invalidated(fonts);
    ScheduledSample(after, offsets, w, text, encode, |fonts|, i, SampleKey(fonts[i].id, text, encode));
    ScheduledName(after, offsets, w, text, encode, |fonts|, i, url);
    ScheduledName(fonts, offsets, w, text, encode, |fonts|, i, url);
  }

  /** The two-font directory scan: both near-visible, so the first pass asks for two names
      and two samples, in list order. */
  lemma TwoFontScenario(encode: string -> string, text: string)
    ensures var data := [Listed("1", "a.ttf"), Listed("2", "b.ttf")];
      PassRequests(Listing(data), [0, 60], Viewport(0, 600), text, encode) ==
      [NameFetch(0, "fontname/1"), SampleFetch(0, "sample/1/380/50/" + encode(text)),
       NameFetch(1, "fontname/2"), SampleFetch(1, "sample/2/380/50/" + encode(text))]
  {
    var data := [Listed("1", "a.ttf"), Listed("2", "b.ttf")];
    var fonts := Listing(data);
    assert fonts == [Font("1", "a.ttf", false, false), Font("2", "b.ttf", false, false)];
    assert NearVisible(0, Viewport(0, 600)) && NearVisible(60, Viewport(0, 600));
    var offsets, w := [0, 60], Viewport(0, 600);
    assert "fontname/" + "1" == "fontname/1" && "fontname/" + "2" == "fontname/2";
    assert "sample/" + "1" + "/380/50/" == "sample/1/380/50/";
    assert "sample/" + "2" + "/380/50/" == "sample/2/380/50/";
    assert FontRequests(0, fonts[0], text, encode) ==
      [NameFetch(0, "fontname/1"), SampleFetch(0, "sample/1/380/50/" + encode(text))];
    assert FontRequests(1, fonts[1], text, encode) ==
      [NameFetch(1, "fontname/2"), SampleFetch(1, "sample/2/380/50/" + encode(text))];
    assert NearVisible(offsets[0], w) && NearVisible(offsets[1], w);
    assert Scheduled(fonts, offsets, w, text, encode, 1) ==
      [NameFetch(0, "fontname/1"), SampleFetch(0, "sample/1/380/50/" + encode(text))];
  }
}
