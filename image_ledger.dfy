/** The image generator's ledger: the in-memory list of generated images,
    the one-time fallback to the provider's free test mode, and the
    shrink policy applied before the list is written to `generatedImages`. */
module ImageLedger {
  import opened Common
  import opened Json
  import opened Records
  import opened Kv

  /** An image as the component holds it. `testMode` is set on images made
      in this session and absent on those read back from the store. */
  datatype ImageRecord = ImageRecord(id: int, prompt: string, url: string, timestamp: string, testMode: Option<bool>)

  const PromptLength := 100
  const KeptOnSave := 3
  const StoredPromptLength := 50
  const StoredTimestampLength := 19
  /** `dataSizeKB > 300` with `dataSizeKB = bytes / 1024`, in bytes. */
  const SizeBudget := 300 * 1024

  const UrlMissing := "Không thể lấy URL ảnh từ response"
  const CreditExhausted := "Account credit không đủ. Vui lòng chuyển sang Test Mode hoặc nạp thêm credit."
  const RetryLater := "Vui lòng thử lại!"

  // ---------------------------------------------------------------------
  // The shrink policy of `saveImagesToStorage`.
  // ---------------------------------------------------------------------

  /** A URL worth persisting: non-empty and not an inline `data:` URL. */
  predicate IsRemoteUrl(url: string) {
    url != "" && !StartsWith(url, "data:")
  }

  /** The light projection of one record: a shorter prompt, an inline URL
      blanked, a shorter timestamp; `testMode` is not carried over. */
  function Lighten(img: ImageRecord): (s: StoredImage)
    ensures s.id == img.id
    ensures s.prompt <= img.prompt && |s.prompt| <= StoredPromptLength
    ensures |s.prompt| == if |img.prompt| < StoredPromptLength then |img.prompt| else StoredPromptLength
    ensures s.timestamp <= img.timestamp && |s.timestamp| <= StoredTimestampLength
    ensures |s.timestamp| == if |img.timestamp| < StoredTimestampLength then |img.timestamp| else StoredTimestampLength
    ensures IsRemoteUrl(s.url) <==> IsRemoteUrl(img.url)
    ensures IsRemoteUrl(s.url) ==> s.url == img.url
    ensures !IsRemoteUrl(img.url) ==> s.url == ""
  {
    StoredImage(img.id, Take(img.prompt, StoredPromptLength),
                if StartsWith(img.url, "data:") then "" else img.url,
                Take(img.timestamp, StoredTimestampLength))
  }

  /** The last three records, lightened, in their order. */
  function Lightened(images: seq<ImageRecord>): (r: seq<StoredImage>)
    ensures |r| == if |images| < KeptOnSave then |images| else KeptOnSave
    ensures forall i :: 0 <= i < |r| ==> r[i] == Lighten(images[|images| - |r| + i])
  {
    var recent := Last(images, KeptOnSave);
    seq(|recent|, i requires 0 <= i < |recent| => Lighten(recent[i]))
  }

  datatype Refusal = NothingToSave | TooLarge

  /** What `saveImagesToStorage` decides to write, before the write itself. */
  datatype SavePlan = Persist(records: seq<StoredImage>) | Refused(reason: Refusal)

  /** A stored record worth keeping: its URL is a real one. */
  predicate Persistable(s: StoredImage) {
    IsRemoteUrl(s.url)
  }

  /** The records of a lightened list that pass the URL filter, in order. */
  function Candidates(light: seq<StoredImage>): (r: seq<StoredImage>)
    ensures IsSubsequence(r, light)
    ensures forall s :: s in r <==> s in light && IsRemoteUrl(s.url)
  {
    FilterIsSubsequence(light, Persistable);
    Filter(light, Persistable)
  }

  /** The decision on a lightened list, where `size` is the byte size of
      the JSON text of a list of stored records: keep the records with a
      real URL, all of them when they fit the budget, else only the newest
      when it fits alone. */
  function PlanFor(light: seq<StoredImage>, size: seq<StoredImage> -> nat): (r: SavePlan)
    ensures r.Persist? ==> 1 <= |r.records| <= |light| && size(r.records) <= SizeBudget
    ensures r.Persist? ==> IsSubsequence(r.records, light)
    ensures r.Persist? ==> forall s :: s in r.records ==> s in light && IsRemoteUrl(s.url)
    ensures r == Refused(NothingToSave) <==> forall s :: s in light ==> !IsRemoteUrl(s.url)
    ensures var valid := Candidates(light);
      valid != [] && size(valid) <= SizeBudget ==> r == Persist(valid)
    ensures var valid := Candidates(light);
      valid != [] && size(valid) > SizeBudget ==>
        r == if size([valid[|valid| - 1]]) <= SizeBudget then Persist([valid[|valid| - 1]]) else Refused(TooLarge)
  {
    var valid := Candidates(light);
    if valid == [] then
      assert forall s :: s in light ==> !IsRemoteUrl(s.url);
      Refused(NothingToSave)
    else if size(valid) <= SizeBudget then
      assert valid[0] in valid;
      Persist(valid)
    else
      var newest := [valid[|valid| - 1]];
      if size(newest) <= SizeBudget then
        SingletonSubsequence(valid[|valid| - 1], light);
        Persist(newest)
      else
        assert valid[0] in valid;
        Refused(TooLarge)
  }

  /** A non-empty lightened list of real URLs within the budget is kept whole. */
  lemma PlanKeepsAllRemote(light: seq<StoredImage>, size: seq<StoredImage> -> nat)
    requires light != [] && size(light) <= SizeBudget
    requires forall s :: s in light ==> IsRemoteUrl(s.url)
    ensures PlanFor(light, size) == Persist(light)
  {
    FilterKeepsAll(light, Persistable);
  }

  /** The plan `saveImagesToStorage` makes for a list of images. */
  function ShrinkPlan(images: seq<ImageRecord>, size: seq<StoredImage> -> nat): (r: SavePlan)
    ensures r.Persist? ==> 1 <= |r.records| <= KeptOnSave && size(r.records) <= SizeBudget
    ensures r.Persist? ==> IsSubsequence(r.records, Lightened(images))
    ensures r.Persist? ==> forall s :: s in r.records ==>
      IsRemoteUrl(s.url) && |s.prompt| <= StoredPromptLength && |s.timestamp| <= StoredTimestampLength
    ensures r == Refused(NothingToSave) <==> forall s :: s in Lightened(images) ==> !IsRemoteUrl(s.url)
    ensures var valid := Candidates(Lightened(images));
      valid != [] && size(valid) <= SizeBudget ==> r == Persist(valid)
    ensures var valid := Candidates(Lightened(images));
      valid != [] && size(valid) > SizeBudget ==>
        r == if size([valid[|valid| - 1]]) <= SizeBudget then Persist([valid[|valid| - 1]]) else Refused(TooLarge)
  {
    LightenedIsShort(images);
    PlanFor(Lightened(images), size)
  }

  /** Every lightened record has a short prompt and timestamp. */
  lemma LightenedIsShort(images: seq<ImageRecord>)
    ensures forall s :: s in Lightened(images) ==>
      |s.prompt| <= StoredPromptLength && |s.timestamp| <= StoredTimestampLength
  {
    var light := Lightened(images);
    forall s | s in light ensures |s.prompt| <= StoredPromptLength && |s.timestamp| <= StoredTimestampLength {
      var i :| 0 <= i < |light| && light[i] == s;
    }
  }

  /** When every one of the last three records has a real URL and they fit
      the budget, all three are persisted, in order. */
  lemma ShrinkKeepsRecentValid(images: seq<ImageRecord>, size: seq<StoredImage> -> nat)
    requires forall i :: 0 <= i < |images| && i >= |images| - KeptOnSave ==> IsRemoteUrl(images[i].url)
    requires size(Lightened(images)) <= SizeBudget && images != []
    ensures ShrinkPlan(images, size) == Persist(Lightened(images))
  {
    PlanKeepsAllRemote(Lightened(images), size);
  }

  /** The three-record window is taken before the URL filter: when none of
      the three newest records has a real URL, nothing is persisted,
      whatever URLs the older records hold and whatever the size. */
  lemma ShrinkIgnoresOlderValid(images: seq<ImageRecord>, size: seq<StoredImage> -> nat)
    requires forall i :: 0 <= i < |images| && i >= |images| - KeptOnSave ==> !IsRemoteUrl(images[i].url)
    ensures ShrinkPlan(images, size) == Refused(NothingToSave)
  {
    var light := Lightened(images);
    forall s | s in light ensures !IsRemoteUrl(s.url) {
      var i :| 0 <= i < |light| && light[i] == s;
      assert s == Lighten(images[|images| - |light| + i]);
    }
  }

  /** The persisted list does not depend on the `testMode` flags: the store
      keeps no trace of which mode produced an image. */
  lemma ShrinkIgnoresTestMode(images: seq<ImageRecord>, flags: seq<Option<bool>>, size: seq<StoredImage> -> nat)
    requires |flags| == |images|
    ensures ShrinkPlan(seq(|images|, i requires 0 <= i < |images| => images[i].(testMode := flags[i])), size)
            == ShrinkPlan(images, size)
  {
    var other := seq(|images|, i requires 0 <= i < |images| => images[i].(testMode := flags[i]));
    LightenedIgnoresTestMode(images, other);
  }

  lemma LightenedIgnoresTestMode(images: seq<ImageRecord>, other: seq<ImageRecord>)
    requires |other| == |images|
    requires forall i :: 0 <= i < |images| ==> other[i] == images[i].(testMode := other[i].testMode)
    ensures Lightened(other) == Lightened(images)
  {
    var r := Lightened(images);
    forall i | 0 <= i < |r| ensures Lightened(other)[i] == r[i] {
      var n := |images| - |r| + i;
      assert Lighten(other[n]) == Lighten(images[n]);
    }
  }

  /** An image read back from the store. */
  function Restored(s: StoredImage): (img: ImageRecord)
    ensures Lighten(img) == Lighten(ImageRecord(s.id, s.prompt, s.url, s.timestamp, None))
  {
    ImageRecord(s.id, s.prompt, s.url, s.timestamp, None)
  }

  function RestoredAll(stored: seq<StoredImage>): (r: seq<ImageRecord>)
    ensures |r| == |stored|
    ensures forall i :: 0 <= i < |r| ==> r[i] == Restored(stored[i])
  {
    seq(|stored|, i requires 0 <= i < |stored| => Restored(stored[i]))
  }

  /** A persisted list is already light: reading it back and saving it
      again writes the same list. */
  lemma ShrinkStable(images: seq<ImageRecord>, size: seq<StoredImage> -> nat)
    requires ShrinkPlan(images, size).Persist?
    ensures var rs := ShrinkPlan(images, size).records;
      ShrinkPlan(RestoredAll(rs), size) == Persist(rs)
  {
    var rs := ShrinkPlan(images, size).records;
    var back := RestoredAll(rs);
    forall i | 0 <= i < |rs| ensures Lighten(back[i]) == rs[i] {
      assert rs[i] in rs;
    }
    assert Lightened(back) == rs;
    PlanKeepsAllRemote(rs, size);
  }

  // ---------------------------------------------------------------------
  // One generation: the provider call with its fallback, and the URL.
  // ---------------------------------------------------------------------

  /** The outcome of one `puter.ai.txt2img(prompt, testMode)` call. */
  datatype Txt2Img = Produced(element: Json) | Rejected(error: Json)

  /** `error.error?.code === 'insufficient_funds'`. */
  predicate InsufficientFunds(err: Json) {
    Get(Get(err, "error"), "code") == Str("insufficient_funds")
  }

  /** The provider calls of one generation: `modes` lists the test-mode
      flag of every call made, in order. */
  datatype Attempts = Attempts(modes: seq<bool>, result: Txt2Img)

  /** Call in the chosen mode; on `insufficient_funds` outside test mode,
      call once more in test mode. */
  function RunAttempts(provider: bool -> Txt2Img, useTest: bool): (a: Attempts)
    ensures 1 <= |a.modes| <= 2 && a.modes[0] == useTest
    ensures |a.modes| == 2 <==>
      provider(useTest).Rejected? && InsufficientFunds(provider(useTest).error) && !useTest
    ensures |a.modes| == 2 ==> a.modes[1] && a.result == provider(true)
    ensures |a.modes| == 1 ==> a.result == provider(useTest)
  {
    match provider(useTest)
    case Produced(_) => Attempts([useTest], provider(useTest))
    case Rejected(err) =>
      if InsufficientFunds(err) && !useTest then Attempts([useTest, true], provider(true))
      else Attempts([useTest], provider(useTest))
  }

  /** The image URL in a provider result: its truthy `src`, or the result
      itself when it is a string; `None` where the component throws. */
  function ExtractUrl(element: Json): (r: Option<string>)
    ensures Truthy(Get(element, "src")) ==> r == Some(ToText(Get(element, "src")))
    ensures element.Str? && !Truthy(Get(element, "src")) ==> r == Some(element.s)
    ensures r.None? <==> !Truthy(Get(element, "src")) && !element.Str?
  {
    if Truthy(element) && Truthy(Get(element, "src")) then Some(ToText(Get(element, "src")))
    else if element.Str? then Some(element.s)
    else None
  }

  /** What one generation yields: the new record, or the error that ends
      it; `switched` tells whether the fallback call succeeded. */
  datatype Generation = Created(record: ImageRecord, switched: bool) | Failed(error: Json, switched: bool)

  function Generate(provider: bool -> Txt2Img, useTest: bool, prompt: string, id: int, stamp: string): (g: Generation)
    ensures g.Created? ==> g.record.id == id && g.record.timestamp == stamp
    ensures g.Created? ==> g.record.prompt <= prompt && |g.record.prompt| == Min(|prompt|, PromptLength)
    ensures g.Created? ==> g.record.testMode == Some(useTest || g.switched)
    ensures g.switched ==>
      !useTest && provider(useTest).Rejected? && InsufficientFunds(provider(useTest).error) && provider(true).Produced?
    ensures provider(useTest).Rejected? && !(InsufficientFunds(provider(useTest).error) && !useTest) ==>
      g == Failed(provider(useTest).error, false)
    ensures var a := RunAttempts(provider, useTest);
      (a.result.Rejected? ==> g == Failed(a.result.error, false)) &&
      (a.result.Produced? && ExtractUrl(a.result.element).Some? ==>
         g.Created? && g.record.url == ExtractUrl(a.result.element).value) &&
      (a.result.Produced? && ExtractUrl(a.result.element).None? ==>
         g == Failed(ErrorObject(UrlMissing), |a.modes| == 2))
    ensures var a := RunAttempts(provider, useTest);
      g.switched <==> |a.modes| == 2 && a.result.Produced?
  {
    var a := RunAttempts(provider, useTest);
    match a.result
    case Rejected(err) => Failed(err, false)
    case Produced(element) =>
      var url := ExtractUrl(element);
      if url.None? then Failed(ErrorObject(UrlMissing), |a.modes| == 2)
      else Created(ImageRecord(id, Take(prompt, PromptLength), url.value, stamp, Some(a.modes[|a.modes| - 1])),
                   |a.modes| == 2)
  }

  function Min(a: int, b: int): int {
    if a < b then a else b
  }

  /** The text of the failure alert, and whether it turns test mode on. */
  function FailureMessage(err: Json): (m: string)
    ensures InsufficientFunds(err) ==> m == CreditExhausted
    ensures !InsufficientFunds(err) && Truthy(Get(Get(err, "error"), "message")) ==>
      m == ToText(Get(Get(err, "error"), "message"))
    ensures !InsufficientFunds(err) && !Truthy(Get(Get(err, "error"), "message")) ==>
      m == if Truthy(Get(err, "message")) then ToText(Get(err, "message")) else RetryLater
  {
    if InsufficientFunds(err) then CreditExhausted
    else if Truthy(Get(Get(err, "error"), "message")) then ToText(Get(Get(err, "error"), "message"))
    else if Truthy(Get(err, "message")) then ToText(Get(err, "message"))
    else RetryLater
  }

  /** A result without a URL fails the generation, and the alert shows the
      missing-URL message the component threw. */
  lemma MissingUrlReported(provider: bool -> Txt2Img, useTest: bool, prompt: string, id: int, stamp: string)
    requires RunAttempts(provider, useTest).result.Produced?
    requires ExtractUrl(RunAttempts(provider, useTest).result.element).None?
    ensures Generate(provider, useTest, prompt, id, stamp).Failed?
    ensures FailureMessage(Generate(provider, useTest, prompt, id, stamp).error) == UrlMissing
  {
    assert Get(ErrorObject(UrlMissing), "error") == Undefined;
    assert Get(ErrorObject(UrlMissing), "message") == Str(UrlMissing);
  }

  /** The images without `id`, the others in their order. */
  function RemoveImage(images: seq<ImageRecord>, id: int): (r: seq<ImageRecord>)
    ensures forall img :: img in r ==> img in images && img.id != id
    ensures forall img :: img in images && img.id != id ==> img in r
    ensures IsSubsequence(r, images)
    ensures forall img :: img in images ==> multiset(r)[img] == if img.id != id then multiset(images)[img] else 0
    ensures (forall j :: 0 <= j < |images| ==> images[j].id != id) ==> r == images
  {
    var keep := (img: ImageRecord) => img.id != id;
    FilterIsSubsequence(images, keep);
    FilterCounts(images, keep);
    if forall j :: 0 <= j < |images| ==> images[j].id != id then
      FilterKeepsAll(images, keep);
      Filter(images, keep)
    else
      Filter(images, keep)
  }

  // ---------------------------------------------------------------------
  // The component's state.
  // ---------------------------------------------------------------------

  class ImageLedger {
    var generatedImages: seq<ImageRecord>
    var imagePrompt: string
    var isGenerating: bool
    var useTestMode: bool
    const kv: Store

    constructor (kv: Store)
      ensures this.kv == kv
      ensures generatedImages == [] && imagePrompt == "" && !isGenerating && !useTestMode
    {
      this.kv := kv;
      generatedImages := [];
      imagePrompt := "";
      isGenerating := false;
      useTestMode := false;
    }

    /** `loadSavedImages`: adopt the stored list when there is one; an
        empty, unreadable or failed read leaves the list as it was. */
    method LoadSavedImages(readOk: bool)
      modifies this`generatedImages
      ensures var stored := kv.Lookup(ImagesKey);
        generatedImages ==
          if readOk && stored.Some? && stored.value.ImageList? then RestoredAll(stored.value.images)
          else old(generatedImages)
    {
      var stored := kv.Lookup(ImagesKey);
      if readOk && stored.Some? && stored.value.ImageList? {
        generatedImages := RestoredAll(stored.value.images);
      }
    }

    /** `saveImagesToStorage(images)`: write the shrunk list, or nothing
        when the policy refuses or the write fails. */
    method SaveImagesToStorage(images: seq<ImageRecord>, size: seq<StoredImage> -> nat, writeOk: bool)
      returns (saved: bool)
      modifies kv
      ensures var plan := ShrinkPlan(images, size);
        (saved <==> plan.Persist? && writeOk) &&
        kv.entries == if saved then old(kv.entries)[ImagesKey := ImageList(plan.records)] else old(kv.entries)
    {
      var plan := ShrinkPlan(images, size);
      saved := false;
      if plan.Persist? && writeOk {
        kv.Put(ImagesKey, ImageList(plan.records));
        saved := true;
      }
    }

    /** `generateImage`. A blank prompt or a pending generation changes
        nothing. A created image is appended and kept whether or not the
        save succeeds, and the prompt is cleared; a successful fallback
        turns test mode on for later generations. A failure leaves the
        images and the prompt alone, reports `failure`, and turns test
        mode on when the credit ran out. `id` and `stamp` are the
        `Date.now()` and ISO time of the new record. */
    method GenerateImage(provider: bool -> Txt2Img, id: int, stamp: string,
                         size: seq<StoredImage> -> nat, writeOk: bool)
      returns (failure: Option<string>)
      modifies this, kv
      ensures isGenerating == old(isGenerating)
      ensures IsBlank(old(imagePrompt)) || old(isGenerating) ==>
        failure.None? && generatedImages == old(generatedImages) && imagePrompt == old(imagePrompt) &&
        useTestMode == old(useTestMode) && kv.entries == old(kv.entries)
      ensures !(IsBlank(old(imagePrompt)) || old(isGenerating)) ==>
        match Generate(provider, old(useTestMode), old(imagePrompt), id, stamp)
        case Created(record, switched) =>
          var images := old(generatedImages) + [record];
          var plan := ShrinkPlan(images, size);
          failure.None? && generatedImages == images && imagePrompt == "" &&
          useTestMode == (old(useTestMode) || switched) &&
          kv.entries == if plan.Persist? && writeOk then old(kv.entries)[ImagesKey := ImageList(plan.records)]
                        else old(kv.entries)
        case Failed(err, switched) =>
          failure == Some(FailureMessage(err)) && generatedImages == old(generatedImages) &&
          imagePrompt == old(imagePrompt) && kv.entries == old(kv.entries) &&
          useTestMode == (old(useTestMode) || switched || InsufficientFunds(err))
    {
      failure := None;
      if IsBlank(imagePrompt) || isGenerating {
        return;
      }
      isGenerating := true;
      var outcome := Generate(provider, useTestMode, imagePrompt, id, stamp);
      if outcome.switched {
        useTestMode := true;
      }
      match outcome {
        case Created(record, switched) =>
          generatedImages := generatedImages + [record];
          var _ := SaveImagesToStorage(generatedImages, size, writeOk);
          imagePrompt := "";
        case Failed(err, _) =>
          failure := Some(FailureMessage(err));
          if InsufficientFunds(err) {
            useTestMode := true;
          }
      }
      isGenerating := false;
    }

    /** `deleteImage(id)`: drop the image from the list, then save the rest
        only when one of them still has a real URL. */
    method DeleteImage(id: int, size: seq<StoredImage> -> nat, writeOk: bool)
      modifies this`generatedImages, kv
      ensures generatedImages == RemoveImage(old(generatedImages), id)
      ensures var plan := ShrinkPlan(generatedImages, size);
        kv.entries ==
          if (exists img :: img in generatedImages && IsRemoteUrl(img.url)) && plan.Persist? && writeOk
          then old(kv.entries)[ImagesKey := ImageList(plan.records)]
          else old(kv.entries)
    {
      generatedImages := RemoveImage(generatedImages, id);
      if exists img :: img in generatedImages && IsRemoteUrl(img.url) {
        var _ := SaveImagesToStorage(generatedImages, size, writeOk);
      }
    }
  }
}
