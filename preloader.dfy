/**
 * The preloader scene: it registers the embedded assets, counts how many
 * of each kind it asked for and how many are ready, and starts the main
 * scene once everything is ready and the web font has loaded. Assets are
 * embedded as base64 text and handed to the engine as `data:` URLs.
 */
module Preloader {
  import opened Text

  const DataPrefix := "data:"

  /** `createBase64Url(data, mimeType)`: a data URL is kept, anything else is wrapped into one. */
  function CreateBase64Url(data: string, mimeType: string): (url: string)
    ensures StartsWith(url, DataPrefix)
    ensures StartsWith(data, DataPrefix) ==> url == data
    ensures !StartsWith(data, DataPrefix) ==> url == DataPrefix + mimeType + ";base64," + data
  {
    if StartsWith(data, DataPrefix) then data
    else
      var url := DataPrefix + mimeType + ";base64," + data;
      assert url[..|DataPrefix|] == DataPrefix;
      url
  }

  /** Wrapping is idempotent, whatever MIME type the second call names. */
  lemma CreateBase64UrlIdempotent(data: string, mimeType: string, other: string)
    ensures CreateBase64Url(CreateBase64Url(data, mimeType), other) == CreateBase64Url(data, mimeType)
  {
  }

  /** One embedded file: its key and its base64 text. */
  datatype Asset = Asset(key: string, data: string)

  class PreloaderScene {
    var loadMain: bool
    var countDecodedAudio: nat
    var allAudio: nat
    var countDecodedTexture: nat
    var allTextures: nat
    var countLoadedSpritesheets: nat
    var allSpritesheets: nat
    var fontsLoaded: bool

    constructor ()
      ensures !loadMain && !fontsLoaded
      ensures countDecodedAudio == 0 && allAudio == 0
      ensures countDecodedTexture == 0 && allTextures == 0
      ensures countLoadedSpritesheets == 0 && allSpritesheets == 0
    {
      loadMain := false;
      countDecodedAudio := 0;
      allAudio := 0;
      countDecodedTexture := 0;
      allTextures := 0;
      countLoadedSpritesheets := 0;
      allSpritesheets := 0;
      fontsLoaded := false;
    }

    /** The totals: how many of each kind were asked for. */
    function Totals(): (nat, nat, nat)
      reads this
    {
      (allAudio, allTextures, allSpritesheets)
    }

    /** The counts of what is ready, with the two flags. */
    function Progress(): (nat, nat, nat, bool, bool)
      reads this
    {
      (countDecodedAudio, countDecodedTexture, countLoadedSpritesheets, loadMain, fontsLoaded)
    }

    /** `addAudio(key, data)`: one more audio file to decode. */
    method AddAudio(asset: Asset)
      modifies this
      ensures Totals() == (old(allAudio) + 1, old(allTextures), old(allSpritesheets))
      ensures Progress() == old(Progress())
    {
      allAudio := allAudio + 1;
    }

    /** `addTexture(key, data)`: one more texture to decode. */
    method AddTexture(asset: Asset)
      modifies this
      ensures Totals() == (old(allAudio), old(allTextures) + 1, old(allSpritesheets))
      ensures Progress() == old(Progress())
    {
      allTextures := allTextures + 1;
    }

    /** `addSpritesheet(key, data, frameConfig)`: one more sheet, requested under its data URL. */
    method AddSpritesheet(asset: Asset) returns (url: string)
      modifies this
      ensures Totals() == (old(allAudio), old(allTextures), old(allSpritesheets) + 1)
      ensures Progress() == old(Progress())
      ensures url == CreateBase64Url(asset.data, "image/png")
    {
      allSpritesheets := allSpritesheets + 1;
      url := CreateBase64Url(asset.data, "image/png");
    }

    /** `addAtlas(key, png, json)`: the two data URLs the atlas is requested under; nothing is counted. */
    method AddAtlas(png: string, json: string) returns (pngUrl: string, jsonUrl: string)
      ensures pngUrl == CreateBase64Url(png, "image/png") && jsonUrl == CreateBase64Url(json, "application/json")
      ensures StartsWith(pngUrl, DataPrefix) && StartsWith(jsonUrl, DataPrefix)
    {
      pngUrl := CreateBase64Url(png, "image/png");
      jsonUrl := CreateBase64Url(json, "application/json");
    }

    /** `addBitmapText(key, png, xml)`: the two data URLs the font is requested under; nothing is counted. */
    method AddBitmapText(png: string, xml: string) returns (pngUrl: string, xmlUrl: string)
      ensures pngUrl == CreateBase64Url(png, "image/png") && xmlUrl == CreateBase64Url(xml, "application/xml")
      ensures StartsWith(pngUrl, DataPrefix) && StartsWith(xmlUrl, DataPrefix)
    {
      pngUrl := CreateBase64Url(png, "image/png");
      xmlUrl := CreateBase64Url(xml, "application/xml");
    }

    /** The registration loops of `preload`: every file of each list is counted once. */
    method Preload(audio: seq<Asset>, textures: seq<Asset>, sheets: seq<Asset>)
      modifies this
      ensures Totals() == (old(allAudio) + |audio|, old(allTextures) + |textures|, old(allSpritesheets) + |sheets|)
      ensures Progress() == old(Progress())
    {
      for i := 0 to |audio|
        invariant Totals() == (old(allAudio) + i, old(allTextures), old(allSpritesheets))
        invariant Progress() == old(Progress())
      {
        AddAudio(audio[i]);
      }
      for i := 0 to |textures|
        invariant Totals() == (old(allAudio) + |audio|, old(allTextures) + i, old(allSpritesheets))
        invariant Progress() == old(Progress())
      {
        AddTexture(textures[i]);
      }
      for i := 0 to |sheets|
        invariant Totals() == (old(allAudio) + |audio|, old(allTextures) + |textures|, old(allSpritesheets) + i)
        invariant Progress() == old(Progress())
      {
        var _ := AddSpritesheet(sheets[i]);
      }
    }

    /** The texture `onload` handler. */
    method IncrementDecodedTexture()
      modifies this
      ensures countDecodedTexture == old(countDecodedTexture) + 1
      ensures Totals() == old(Totals()) && countDecodedAudio == old(countDecodedAudio)
      ensures countLoadedSpritesheets == old(countLoadedSpritesheets)
      ensures loadMain == old(loadMain) && fontsLoaded == old(fontsLoaded)
      ensures old(Ready()) ==> Ready()
    {
      countDecodedTexture := countDecodedTexture + 1;
    }

    /** The audio `decoded` handler. */
    method IncrementDecodedAudio()
      modifies this
      ensures countDecodedAudio == old(countDecodedAudio) + 1
      ensures Totals() == old(Totals()) && countDecodedTexture == old(countDecodedTexture)
      ensures countLoadedSpritesheets == old(countLoadedSpritesheets)
      ensures loadMain == old(loadMain) && fontsLoaded == old(fontsLoaded)
      ensures old(Ready()) ==> Ready()
    {
      countDecodedAudio := countDecodedAudio + 1;
    }

    /**
     * The end of the web-font load: whether the load succeeded, failed, or
     * the browser has no font API and the fallback delay ran out, the flag
     * is set.
     */
    method FontsSettled()
      modifies this
      ensures fontsLoaded
      ensures Totals() == old(Totals())
      ensures Progress() == old(Progress()).(4 := true)
      ensures old(Ready()) ==> Ready()
    {
      fontsLoaded := true;
    }

    /** `onLoadComplete()`: every sheet counts as loaded and the main scene may start. */
    method OnLoadComplete()
      modifies this
      ensures countLoadedSpritesheets == allSpritesheets && loadMain
      ensures Totals() == old(Totals())
      ensures Progress() == old(Progress()).(2 := old(allSpritesheets), 3 := true)
      ensures old(Ready()) ==> Ready()
    {
      countLoadedSpritesheets := allSpritesheets;
      loadMain := true;
    }

    /** `create()`: the main scene may start. */
    method Create()
      modifies this
      ensures loadMain
      ensures Totals() == old(Totals())
      ensures Progress() == old(Progress()).(3 := true)
      ensures old(Ready()) ==> Ready()
    {
      loadMain := true;
    }

    /** Everything asked for is ready and the font is loaded. */
    predicate Ready()
      reads this
    {
      && loadMain
      && countDecodedAudio >= allAudio
      && countDecodedTexture >= allTextures
      && countLoadedSpritesheets >= allSpritesheets
      && fontsLoaded
    }

    /** `update()`: whether this frame starts the main scene. */
    method Update() returns (startMain: bool)
      ensures startMain <==> Ready()
      ensures startMain ==> fontsLoaded && loadMain
    {
      startMain := loadMain && countDecodedAudio >= allAudio && countDecodedTexture >= allTextures
        && countLoadedSpritesheets >= allSpritesheets && fontsLoaded;
    }
  }

  /**
   * A load from start to finish: the lists are registered, each decode
   * handler fires once per file, the loader completes and then the fonts
   * settle. The frame before the fonts settle does not start the main
   * scene; the frame after does.
   */
  method LoadToStart(audio: seq<Asset>, textures: seq<Asset>, sheets: seq<Asset>)
    returns (beforeFonts: bool, afterFonts: bool)
    ensures !beforeFonts && afterFonts
  {
    var scene := new PreloaderScene();
    scene.Preload(audio, textures, sheets);
    for i := 0 to |audio|
      invariant scene.Totals() == (|audio|, |textures|, |sheets|)
      invariant scene.Progress() == (i, 0, 0, false, false)
    {
      scene.IncrementDecodedAudio();
    }
    for i := 0 to |textures|
      invariant scene.Totals() == (|audio|, |textures|, |sheets|)
      invariant scene.Progress() == (|audio|, i, 0, false, false)
    {
      scene.IncrementDecodedTexture();
    }
    scene.OnLoadComplete();
    beforeFonts := scene.Update();
    scene.FontsSettled();
    afterFonts := scene.Update();
  }
}
