/** The page controller: the global font list, sample text and font directory, what the
    font area currently shows, which sample-text handler is bound, and the operations and
    network callbacks that change them. Network calls are split into the call (which only
    updates state) and the callbacks for success and failure, each a method of its own. */
module FontManager {
  import opened Text
  import opened Samples

  /** The status line: its text and whether it is shown as an error. */
  datatype Status = Status(text: string, isError: bool)

  /** What the font area shows: nothing, the list of a scanned directory, or the installed
      families with the text their previews display. */
  datatype View = Blank | FolderList | InstalledList(families: seq<string>, preview: string)

  /** Which submit handler the sample-text form has: none yet, the directory one or the
      installed one. */
  datatype Handler = Unbound | FolderHandler | InstalledHandler

  class App {
    var fonts: array<Font>
    var sampleText: string
    var fontsDir: string
    var status: Status
    var view: View
    var handler: Handler

    /** The page-level invariant every operation keeps: the sample text is always a
        normalised text (non-empty and trimmed, as `SampleTextFor` yields); the directory
        list is on screen only with its own handler bound, the installed list only with
        the installed one. */
    ghost predicate Valid()
      reads this
    {
      IsSampleText(sampleText) &&
      (view == FolderList ==> handler == FolderHandler) &&
      (view.InstalledList? ==> handler == InstalledHandler)
    }

    /** The page as loaded: no fonts, the default sample text, directory "/". */
    constructor ()
      ensures Valid()
      ensures fresh(fonts) && fonts.Length == 0 && sampleText == DefaultSampleText && fontsDir == "/"
      ensures status == Status("", false) && view == Blank && handler == Unbound
    {
      DefaultIsSampleText();
      fonts := new Font[0];
      sampleText := DefaultSampleText;
      fontsDir := "/";
      status := Status("", false);
      view := Blank;
      handler := Unbound;
    }

    // ----- The lazy preview scheduler -----

    /** One scheduler pass, run on every scroll event: walks the near-visible fonts of the
        directory list in order and returns the fetches it issues, changing nothing. When
        the font area shows no directory list there is nothing to walk. `offsets[i]` is the
        page offset of font `i`'s list item at the time of the pass. */
    method Pass(offsets: seq<int>, w: Viewport, encode: string -> string) returns (reqs: seq<Request>)
      requires |offsets| == fonts.Length
      ensures reqs == if view == FolderList then PassRequests(fonts[..], offsets, w, sampleText, encode) else []
    {
      reqs := [];
      if view != FolderList {
        return;
      }
      var i := 0;
      while i < fonts.Length
        invariant 0 <= i <= fonts.Length
        invariant reqs == Scheduled(fonts[..], offsets, w, sampleText, encode, i)
      {
        if NearVisible(offsets[i], w) {
          var font := fonts[i];
          if !font.hasName {
            reqs := reqs + [NameFetch(i, NameKey(font.id))];
          }
          if !font.sampleUpToDate {
            reqs := reqs + [SampleFetch(i, SampleKey(font.id, sampleText, encode))];
          }
        }
        i := i + 1;
      }
    }

    /** Two scroll events with no completion in between issue the same fetches twice: the
        flags are the only guard, so every fetch of the first pass is duplicated unless the
        near-visible fonts were already settled. */
    method ScrollTwice(offsets: seq<int>, w: Viewport, encode: string -> string)
      returns (first: seq<Request>, second: seq<Request>)
      requires |offsets| == fonts.Length
      ensures first == second
      ensures view == FolderList ==>
        (first == [] <==> forall i :: 0 <= i < fonts.Length && NearVisible(offsets[i], w) ==>
                            fonts[i].hasName && fonts[i].sampleUpToDate)
      ensures view != FolderList ==> first == []
    {
      first := Pass(offsets, w, encode);
      second := Pass(offsets, w, encode);
      ScheduledNothing(fonts[..], offsets, w, sampleText, encode, fonts.Length);
    }

    /** A name fetch for font `i` succeeded: that font now has its name; nothing else changes. */
    method NameResolved(i: nat)
      requires Valid()
      requires i < fonts.Length
      modifies fonts
      ensures Valid()
      ensures fonts[..] == old(fonts[..])[i := old(fonts[i]).(hasName := true)]
    {
      fonts[i] := fonts[i].(hasName := true);
    }

    /** The preview image for font `i` finished loading: its sample is up to date; nothing
        else changes. */
    method SampleLoaded(i: nat)
      requires Valid()
      requires i < fonts.Length
      modifies fonts
      ensures Valid()
      ensures fonts[..] == old(fonts[..])[i := old(fonts[i]).(sampleUpToDate := true)]
    {
      fonts[i] := fonts[i].(sampleUpToDate := true);
    }

    // ----- Directory browsing and scanning -----

    /** Start browsing `dir`: it becomes the font directory, the status line is cleared and
        the font area emptied. */
    method BrowseDir(dir: string)
      requires Valid()
      modifies this
      ensures Valid()
      ensures fontsDir == dir && status == Status("", false) && view == Blank
      ensures fonts == old(fonts) && sampleText == old(sampleText) && handler == old(handler)
    {
      fontsDir := dir;
      status := Status("", false);
      view := Blank;
    }

    /** The subdirectory listing failed: an error status, nothing else changes. */
    method SubdirsFailed()
      requires Valid()
      modifies this
      ensures Valid()
      ensures status == Status("Unable to determine subdirectories.", true)
      ensures fonts == old(fonts) && sampleText == old(sampleText) && fontsDir == old(fontsDir)
      ensures view == old(view) && handler == old(handler)
    {
      status := Status("Unable to determine subdirectories.", true);
    }

    /** Start scanning `dir` for fonts: it becomes the font directory whatever the scan
        later returns. */
    method ScanFolder(dir: string)
      requires Valid()
      modifies this
      ensures Valid()
      ensures fontsDir == dir && status == Status("Scanning for fonts in " + dir + "...", false)
      ensures fonts == old(fonts) && sampleText == old(sampleText)
      ensures view == old(view) && handler == old(handler)
    {
      fontsDir := dir;
      status := Status("Scanning for fonts in " + dir + "...", false);
    }

    /** The scan of `dir` returned `data`. An empty result only reports it. A non-empty one
        replaces the font list by fresh records with neither name nor sample, shows it, binds
        the directory submit handler and runs the first pass over the new list. */
    method FolderListed(dir: string, data: seq<Listed>, offsets: seq<int>, w: Viewport,
                        encode: string -> string) returns (reqs: seq<Request>)
      requires Valid()
      requires |offsets| == |data|
      modifies this
      ensures Valid()
      ensures fontsDir == old(fontsDir) && sampleText == old(sampleText)
      ensures |data| == 0 ==>
        status == Status("No fonts found in " + dir, false) && reqs == [] &&
        fonts == old(fonts) && view == old(view) && handler == old(handler)
      ensures |data| > 0 ==>
        status == Status("Showing fonts in " + dir, false) &&
        fresh(fonts) && fonts[..] == Listing(data) &&
        view == FolderList && handler == FolderHandler &&
        reqs == PassRequests(Listing(data), offsets, w, sampleText, encode)
    {
      if |data| == 0 {
        status := Status("No fonts found in " + dir, false);
        reqs := [];
        return;
      }
      var records := new Font[|data|];
      var k := 0;
      while k < |data|
        invariant 0 <= k <= |data|
        modifies records
        invariant forall j :: 0 <= j < k ==> records[j] == Listing(data)[j]
      {
        records[k] := Font(data[k].id, data[k].filename, false, false);
        k := k + 1;
      }
      assert records[..] == Listing(data);
      fonts := records;
      status := Status("Showing fonts in " + dir, false);
      handler := FolderHandler;
      view := FolderList;
      reqs := Pass(offsets, w, encode);
    }

    /** The scan failed: an error status; the font list stays as it was. */
    method FolderListingFailed()
      requires Valid()
      modifies this
      ensures Valid()
      ensures status == Status("Could not load font list.", true)
      ensures fonts == old(fonts) && sampleText == old(sampleText) && fontsDir == old(fontsDir)
      ensures view == old(view) && handler == old(handler)
    {
      status := Status("Could not load font list.", true);
    }

    // ----- Installed fonts -----

    /** Start listing the installed fonts. */
    method ListInstalled()
      requires Valid()
      modifies this
      ensures Valid()
      ensures status == Status("Loading installed fonts...", false)
      ensures fonts == old(fonts) && sampleText == old(sampleText) && fontsDir == old(fontsDir)
      ensures view == old(view) && handler == old(handler)
    {
      status := Status("Loading installed fonts...", false);
    }

    /** The installed families arrived: they are shown at once with the current sample text
        and the installed submit handler is bound. No fetch is issued, and the directory
        font list is left as it was. */
    method InstalledListed(families: seq<string>)
      requires Valid()
      modifies this
      ensures Valid()
      ensures status == Status("Showing installed fonts", false)
      ensures view == InstalledList(families, sampleText) && handler == InstalledHandler
      ensures fonts == old(fonts) && sampleText == old(sampleText) && fontsDir == old(fontsDir)
    {
      status := Status("Showing installed fonts", false);
      view := InstalledList(families, sampleText);
      handler := InstalledHandler;
    }

    /** The installed listing failed: an error status, nothing else changes. */
    method InstalledListingFailed()
      requires Valid()
      modifies this
      ensures Valid()
      ensures status == Status("Could not load installed fonts.", true)
      ensures fonts == old(fonts) && sampleText == old(sampleText) && fontsDir == old(fontsDir)
      ensures view == old(view) && handler == old(handler)
    {
      status := Status("Could not load installed fonts.", true);
    }

    // ----- Sample-text submission -----

    /** Marks every preview out of date, keeping every name flag. */
    method InvalidateSamples()
      requires Valid()
      modifies fonts
      ensures Valid()
      ensures fonts[..] == Invalidated(old(fonts[..]))
      ensures forall k :: 0 <= k < fonts.Length ==>
        fonts[k].hasName == old(fonts[k].hasName) && !fonts[k].sampleUpToDate
    {
      var i := 0;
      while i < fonts.Length
        invariant 0 <= i <= fonts.Length
        invariant forall k :: 0 <= k < i ==> fonts[k] == old(fonts[k]).(sampleUpToDate := false)
        invariant forall k :: i <= k < fonts.Length ==> fonts[k] == old(fonts[k])
      {
        fonts[i] := fonts[i].(sampleUpToDate := false);
        i := i + 1;
      }
    }

    /** The directory handler: the sample text becomes the trimmed input (the default when
        that is empty), every preview is marked out of date with every name flag kept, and a
        pass runs with the new text. */
    method SubmitForFolder(input: string, offsets: seq<int>, w: Viewport, encode: string -> string)
      returns (reqs: seq<Request>)
      requires Valid()
      requires |offsets| == fonts.Length
      modifies this, fonts
      ensures Valid()
      ensures sampleText == SampleTextFor(input)
      ensures fonts == old(fonts) && fonts[..] == Invalidated(old(fonts[..]))
      ensures forall k :: 0 <= k < fonts.Length ==>
        fonts[k].hasName == old(fonts[k].hasName) && !fonts[k].sampleUpToDate
      ensures fontsDir == old(fontsDir) && status == old(status)
      ensures view == old(view) && handler == old(handler)
      ensures reqs == if view == FolderList then PassRequests(fonts[..], offsets, w, sampleText, encode) else []
    {
      sampleText := SampleTextFor(input);
      InvalidateSamples();
      reqs := Pass(offsets, w, encode);
    }

    /** The installed handler: the sample text follows the same rule, but the previews are
        given the trimmed input itself, which may be empty. */
    method SubmitForInstalled(input: string)
      requires Valid()
      modifies this
      ensures Valid()
      ensures sampleText == SampleTextFor(input)
      ensures view == if old(view).InstalledList? then old(view).(preview := Trim(input)) else old(view)
      ensures fonts == old(fonts) && fontsDir == old(fontsDir) && status == old(status)
      ensures handler == old(handler)
    {
      var text := SampleTextFor(input);
      var shown := if view.InstalledList? then view.(preview := Trim(input)) else view;
      assert IsSampleText(text) && shown.InstalledList? == view.InstalledList? && (shown == FolderList <==> view == FolderList);
      sampleText := text;
      view := shown;
    }

    /** A submission of the sample-text form goes to whichever handler is bound. */
    method Submit(input: string, offsets: seq<int>, w: Viewport, encode: string -> string)
      returns (reqs: seq<Request>)
      requires Valid()
      requires |offsets| == fonts.Length
      modifies this, fonts
      ensures Valid()
      ensures fonts == old(fonts) && fontsDir == old(fontsDir) && status == old(status)
      ensures handler == old(handler)
      ensures handler == Unbound ==>
        sampleText == old(sampleText) && fonts[..] == old(fonts[..]) && view == old(view) && reqs == []
      ensures handler == FolderHandler ==>
        sampleText == SampleTextFor(input) && fonts[..] == Invalidated(old(fonts[..])) &&
        view == old(view) &&
        reqs == if view == FolderList then PassRequests(fonts[..], offsets, w, sampleText, encode) else []
      ensures handler == InstalledHandler ==>
        sampleText == SampleTextFor(input) && fonts[..] == old(fonts[..]) && reqs == [] &&
        view == if old(view).InstalledList? then old(view).(preview := Trim(input)) else old(view)
    {
      match handler
      case Unbound =>
        reqs := [];
      case FolderHandler =>
        reqs := SubmitForFolder(input, offsets, w, encode);
      case InstalledHandler =>
        SubmitForInstalled(input);
        reqs := [];
    }
  }

  /** Installed fonts right after page load: the families are shown with the default text
      and no fetch, and a blank submission then keeps the default text, shows an empty
      preview and issues no fetch either. */
  method InstalledAtStartup(encode: string -> string) returns (reqs: seq<Request>, app: App)
    ensures reqs == [] && app.sampleText == DefaultSampleText
    ensures app.view == InstalledList(["Arial", "Verdana"], "")
  {
    app := new App();
    app.ListInstalled();
    app.InstalledListed(["Arial", "Verdana"]);
    assert app.view == InstalledList(["Arial", "Verdana"], DefaultSampleText);
    reqs := app.Submit("   ", [], Viewport(0, 600), encode);
    assert AllSpace("   ");
    SampleTextDefault("   ");
    TrimEmpty("   ");
  }
}
