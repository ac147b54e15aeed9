/**
 * The state of the `FototerapiaApp` component (app.jsx) and the two events
 * that recompute the settings: a finished image sample and a change of the
 * selected condition. Rendering is not modelled; the state hooks are fields.
 */
module Fototerapia {
  import opened Wrappers
  import opened Rounding
  import opened Phototypes
  import opened Catalog
  import opened Settings
  import opened Sampler

  /**
   * `phototype || "III"`: the detected phototype's tag, or "III" before any
   * image was sampled. It is always one of the five known tags.
   */
  function TagOrDefault(p: Option<Phototype>): (t: string)
    ensures t in {"I-II", "III", "IV", "V", "VI"}
    ensures p.Some? ==> t == p.value.Tag()
    ensures p.None? ==> t == TypeIII.Tag()
  {
    if p.Some? then p.value.Tag() else "III"
  }

  lemma BlockArea(width: nat, height: nat)
    requires width >= 20 && height >= 20
    ensures width * height >= 400
  {
    MulMono(20, width, height);
  }

  class FototerapiaApp {
    var imageName: Option<string>
    var avgColor: Option<AvgColor>
    var phototype: Option<Phototype>
    var disease: Disease
    var settings: Option<Payload>

    /**
     * The settings shown are always those of the current condition and
     * phototype ("III" while none was detected); a phototype is known exactly
     * when a mean colour is, and both come from a named image.
     */
    ghost predicate Valid()
      reads this
    {
      (settings.Some? ==> settings.value == ComputeSettings(disease, TagOrDefault(phototype))) &&
      (phototype.Some? <==> avgColor.Some?) &&
      (avgColor.Some? ==> imageName.Some? && settings.Some?)
    }

    /** The initial hook values: nothing sampled, "ulcera_superficial" selected, no settings yet. */
    constructor ()
      ensures Valid()
      ensures imageName == None && avgColor == None && phototype == None && settings == None
      ensures disease == UlceraSuperficial
    {
      imageName := None;
      avgColor := None;
      phototype := None;
      disease := UlceraSuperficial;
      settings := None;
    }

    /**
     * `handleImageFile` once the image is decoded and drawn `WorkingWidth`
     * by `h`: `data` is what `getImageData` returns for the sample block, four
     * bytes per pixel. The mean colour, the phototype estimated from the
     * unrounded means, and the settings for the current condition replace the
     * old ones.
     */
    method HandleImageFile(name: string, h: nat, data: array<byte>)
      requires Valid()
      requires data.Length == 4 * (SampleRect(WorkingWidth, h).width * SampleRect(WorkingWidth, h).height)
      modifies this
      ensures Valid()
      ensures imageName == Some(name) && disease == old(disease)
      ensures var n := data.Length / 4;
        var m := Mean(ChannelSum(data[..], 0, n), ChannelSum(data[..], 1, n), ChannelSum(data[..], 2, n), n);
        n >= 400 &&
        avgColor == Some(MeanColor(m)) &&
        phototype == Some(EstimatePhototype(m.rSum, m.gSum, m.bSum, n)) &&
        settings == Some(ComputeSettings(disease, phototype.value.Tag()))
    {
      var rect := SampleRect(WorkingWidth, h);
      BlockArea(rect.width, rect.height);
      imageName := Some(name);
      var m := AverageColor(data);
      avgColor := Some(MeanColor(m));
      var p := EstimatePhototype(m.rSum, m.gSum, m.bSum, m.count);
      phototype := Some(p);
      settings := Some(ComputeSettings(disease, p.Tag()));
    }

    /**
     * `handleImageFile` for a file the browser cannot decode: the file name is
     * set before `await img.decode()` rejects, so the new name is shown while
     * the colour, the phototype and the settings still describe the previous
     * image.
     */
    method HandleUndecodableFile(name: string)
      requires Valid()
      modifies this
      ensures Valid()
      ensures imageName == Some(name)
      ensures avgColor == old(avgColor) && phototype == old(phototype)
      ensures disease == old(disease) && settings == old(settings)
    {
      imageName := Some(name);
    }

    /**
     * `handleDiseaseChange`: select the condition and recompute with the
     * current phototype, or with "III" when no image was sampled yet.
     */
    method HandleDiseaseChange(key: Disease)
      requires Valid()
      modifies this
      ensures Valid()
      ensures disease == key
      ensures settings == Some(ComputeSettings(key, TagOrDefault(phototype)))
      ensures old(phototype).None? ==> settings == Some(ComputeSettings(key, "III"))
      ensures imageName == old(imageName) && avgColor == old(avgColor) && phototype == old(phototype)
    {
      disease := key;
      settings := Some(ComputeSettings(key, TagOrDefault(phototype)));
    }
  }
}
