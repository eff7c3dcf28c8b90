/** A product's picture (src/components/product-image.tsx): the image
    address is normalised to an absolute URL, and the category's placeholder
    glyph is shown instead when there is no usable address or the image
    failed to load. */
module ProductImage {
  import opened Wrappers
  import opened Text
  import opened Api

  /** `BACKEND_BASE_URL`, prepended to addresses relative to the backend. */
  const BackendBaseUrl := "http://192.168.1.13:8080"

  /** The addresses the effect turns away: null, the empty or all-whitespace
      string, and the text "null" itself (compared before trimming). */
  predicate Unusable(imageUrl: Option<string>) {
    imageUrl.None? || imageUrl.value == "" || Trim(imageUrl.value) == "" || imageUrl.value == "null"
  }

  /** The address the effect stores, as a function of the prop. */
  function NormalizeImageUrl(imageUrl: Option<string>): (r: Option<string>)
    ensures r.None? <==> Unusable(imageUrl)
    ensures r.Some? ==> StartsWith(r.value, "http")
    ensures r.Some? ==> var u := Trim(imageUrl.value); |u| <= |r.value| && r.value[|r.value| - |u|..] == u
  {
    if Unusable(imageUrl) then None
    else
      var url := Trim(imageUrl.value);
      if StartsWith(url, "//") then Some("https:" + url)
      else if StartsWith(url, "/") then Some(BackendBaseUrl + url)
      else if !StartsWith(url, "http") then Some("https://" + url)
      else Some(url)
  }

  /** A normalised address is trimmed and starts with "http", so running it
      through the chain again changes nothing. */
  lemma NormalizeIdempotent(imageUrl: Option<string>)
    requires NormalizeImageUrl(imageUrl).Some?
    ensures NormalizeImageUrl(NormalizeImageUrl(imageUrl)) == NormalizeImageUrl(imageUrl)
  {
    var r := NormalizeImageUrl(imageUrl).value;
    var u := Trim(imageUrl.value);
    assert r[|r| - 1] == u[|u| - 1] by {
      assert r[|r| - |u|..][|u| - 1] == r[|r| - 1];
    }
    HttpAddressIsFixed(r);
  }

  /** An address starting with "http" and not ending in whitespace is left
      as it is. */
  lemma HttpAddressIsFixed(r: string)
    requires StartsWith(r, "http") && !IsWhitespace(r[|r| - 1])
    ensures NormalizeImageUrl(Some(r)) == Some(r)
  {
    assert r[0] == r[..4][0] == 'h';
    TrimKeepsTrimmed(r);
    assert r != "null" by {
      assert r[0] != "null"[0];
    }
    assert !StartsWith(r, "/") by {
      assert r[..1][0] == 'h';
    }
    assert !StartsWith(r, "//") by {
      assert r[..2][0] == 'h';
    }
  }

  /** The "null" test is made before trimming, so a padded "null" is taken
      for a host name. */
  lemma PaddedNullIsAHost()
    ensures NormalizeImageUrl(Some(" null")) == Some("https://null")
  {
    PaddedNullTrims();
    assert " null" != "null" && " null"[0] != "null"[0];
    assert !Unusable(Some(" null"));
    assert "null"[..4] == "null" && "null"[..1] == "n" && "null"[..2] == "nu";
    assert !StartsWith("null", "/") && !StartsWith("null", "//") && !StartsWith("null", "http");
    assert "https://" + "null" == "https://null";
  }

  lemma PaddedNullTrims()
    ensures Trim(" null") == "null"
  {
    assert !IsWhitespace('n') && !IsWhitespace('l');
    assert TrimStart("null") == "null";
    assert " null"[1..] == "null";
    assert TrimStart(" null") == "null";
    assert TrimEnd("null") == "null";
  }

  /** `getImageSize`: the first of 'w-16', 'w-12', 'w-10' that the class
      list includes decides the pixel size; 48 by default. */
  function GetImageSize(className: string): (size: int)
    ensures size in {64, 48, 40}
    ensures size == 64 <==> Contains(className, "w-16")
    ensures size == 40 <==> !Contains(className, "w-16") && !Contains(className, "w-12") && Contains(className, "w-10")
  {
    if Contains(className, "w-16") then 64
    else if Contains(className, "w-12") then 48
    else if Contains(className, "w-10") then 40
    else 48
  }

  /** The order page's and the assistant's class lists give 48 pixels, as
      does no class list at all. */
  lemma FixedBoxSizes()
    ensures GetImageSize("w-12 h-12") == 48
    ensures GetImageSize("w-12 h-12 flex-shrink-0") == 48
    ensures GetImageSize("") == 48
  {
    assert StartsWith("w-12 h-12", "w-12");
    ContainsNeedsChar("w-12 h-12", "w-16", '6');
    assert StartsWith("w-12 h-12 flex-shrink-0", "w-12");
    ContainsNeedsChar("w-12 h-12 flex-shrink-0", "w-16", '6');
  }

  /** The menu pages' responsive class list includes `md:w-16`, so it is
      sized 64 whatever the screen. */
  lemma ResponsiveListSize()
    ensures GetImageSize(ResponsiveClasses) == 64
  {
    assert ResponsiveClasses[29..33] == "w-16";
    assert OccursAt(ResponsiveClasses, "w-16", 29);
    ContainsIsOccurs(ResponsiveClasses, "w-16");
  }

  /** The class list of the menu pages' product images. */
  const ResponsiveClasses := "w-10 h-10 sm:w-12 sm:h-12 md:w-16 md:h-16"

  /** What the component draws: the glyph, saying whether the image failed,
      or the image inside a box carrying the caller's classes. The computed
      size is not passed to the markup, so it is not part of the view. */
  datatype View = ShowPlaceholder(glyph: string, failed: bool) | ShowImage(src: string, boxClasses: string)

  /** The classes the image box adds after the caller's. */
  const BoxClasses := " rounded-lg overflow-hidden flex-shrink-0 bg-gray-100"

  /** One rendered `ProductImage`, with its props and state. */
  class ProductImageView {
    var imageUrl: Option<string>
    var categoryName: string
    var className: string
    var imageError: bool
    var processedUrl: Option<string>

    constructor (imageUrl: Option<string>, categoryName: string, className: string)
      ensures this.imageUrl == imageUrl && this.categoryName == categoryName && this.className == className
      ensures !imageError && processedUrl == None
    {
      this.imageUrl := imageUrl;
      this.categoryName := categoryName;
      this.className := className;
      imageError := false;
      processedUrl := None;
    }

    /** The effect on `imageUrl`: rewrites a local copy of the address
        step by step and stores it, or stores null. */
    method NormalizeEffect()
      modifies this
      ensures processedUrl == NormalizeImageUrl(imageUrl)
      ensures imageUrl == old(imageUrl) && categoryName == old(categoryName) && className == old(className)
      ensures imageError == old(imageError)
    {
      if imageUrl.None? || imageUrl.value == "" || Trim(imageUrl.value) == "" || imageUrl.value == "null" {
        processedUrl := None;
        return;
      }
      var url := Trim(imageUrl.value);
      if StartsWith(url, "//") {
        url := "https:" + url;
      } else if StartsWith(url, "/") {
        url := BackendBaseUrl + url;
      } else if !StartsWith(url, "http") {
        url := "https://" + url;
      }
      processedUrl := Some(url);
    }

    /** The image's `onError`. */
    method OnError()
      modifies this
      ensures imageError
      ensures Render().ShowPlaceholder? && Render().failed
      ensures imageUrl == old(imageUrl) && categoryName == old(categoryName) && className == old(className)
      ensures processedUrl == old(processedUrl)
    {
      imageError := true;
    }

    /** The placeholder stands in when there is no address or the image
        failed; its glyph is the category's, by the case-insensitive lookup. */
    function Render(): (v: View)
      reads this
      ensures v.ShowImage? <==> processedUrl.Some? && !imageError
      ensures v.ShowImage? ==> v.src == processedUrl.value && StartsWith(v.boxClasses, className)
      ensures v.ShowPlaceholder? ==> v.glyph == CategoryPlaceholder(categoryName) && v.failed == imageError
    {
      if processedUrl.None? || imageError then ShowPlaceholder(CategoryPlaceholder(categoryName), imageError)
      else ShowImage(processedUrl.value, className + BoxClasses)
    }
  }
}
