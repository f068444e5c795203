/** Accepted media types, and the processors that claim them. */
module Media {
  import opened Prelude
  import opened Domain
  import Strings

  const SUPPORTED: set<string> :=
    {"image/png", "image/jpeg", "image/jpg", "image/webp", "image/gif", "application/pdf"}

  function Normalize(mediaType: string): string {
    Strings.ToLower(Strings.TrimSpace(mediaType))
  }

  predicate IsSupportedMediaType(mediaType: string) {
    Normalize(mediaType) in SUPPORTED
  }

  datatype Processor = ImageProcessor | PdfProcessor {
    predicate CanProcess(mediaType: string) {
      match this
      case ImageProcessor =>
        var lower := Strings.ToLower(mediaType);
        if lower in {"image/png", "image/jpeg", "image/jpg", "image/webp", "image/gif"} then true
        else Strings.HasPrefix(lower, "image/")
      case PdfProcessor =>
        var clean := Normalize(mediaType);
        clean == "application/pdf" || clean == "application/x-pdf"
    }

    /** The files this processor saves, in the order it saves them. */
    function Plan(): seq<Kind> {
      match this
      case ImageProcessor => [Thumb, Medium, Optimized]
      case PdfProcessor => [ExtractedText, Cover]
    }

    /** The artifacts of the first `count` saves. */
    function Produced(id: JobId, uid: Uid, count: nat): (r: seq<Artifact>)
      requires count <= |Plan()|
      ensures |r| == count
    {
      seq(count, i requires 0 <= i < count => Artifact(id, Product(uid, Plan()[i])))
    }
  }

  /** What each processor makes, in this order. */
  lemma MakesExactly(proc: Processor, id: JobId, uid: Uid)
    ensures proc.Produced(id, uid, |proc.Plan()|) ==
            match proc
            case ImageProcessor =>
              [Artifact(id, Product(uid, Thumb)), Artifact(id, Product(uid, Medium)),
               Artifact(id, Product(uid, Optimized))]
            case PdfProcessor =>
              [Artifact(id, Product(uid, ExtractedText)), Artifact(id, Product(uid, Cover))]
  {
  }

  /** The processors of cmd/worker, in registration order. */
  const PROCESSORS: seq<Processor> := [ImageProcessor, PdfProcessor]

  function FirstMatch(processors: seq<Processor>, mediaType: string): Option<Processor> {
    if processors == [] then None
    else if processors[0].CanProcess(mediaType) then Some(processors[0])
    else FirstMatch(processors[1..], mediaType)
  }

  /** An upload's media type is accepted exactly when it is one of six words, in any letter case and with any space
      around it, and is stored as that word. */
  lemma AcceptedSpellings(mediaType: string)
    ensures IsSupportedMediaType(Normalize(mediaType)) <==>
              exists t | t in {"image/png", "image/jpeg", "image/jpg", "image/webp", "image/gif", "application/pdf"} ::
                Strings.NamesWord(mediaType, t)
    ensures forall t | t in {"image/png", "image/jpeg", "image/jpg", "image/webp", "image/gif", "application/pdf"} ::
              Strings.NamesWord(mediaType, t) ==> Normalize(mediaType) == t
  {
    NormalizeIdempotent(mediaType);
    TypesAreWords();
    hide Normalize, Strings.NamesWord, Strings.IsWord;
    forall t | t in SUPPORTED
      ensures Normalize(mediaType) == t <==> Strings.NamesWord(mediaType, t)
    {
      NormalizedWord(mediaType, t);
    }
  }

  lemma TypesAreWords()
    ensures forall t :: t in SUPPORTED ==> Strings.IsWord(t)
  {
  }

  lemma NormalizedWord(mediaType: string, t: string)
    requires Strings.IsWord(t)
    ensures Normalize(mediaType) == t <==> Strings.NamesWord(mediaType, t)
  {
    hide Strings.NamesWord;
    Strings.TrimmedLower(mediaType, t);
  }

  /** Whatever the media type, the dispatch loop takes the image processor exactly if it starts with image/ in any
      letter case, and otherwise the PDF processor exactly for its two words, in any case and with space around. */
  lemma DispatchExactly(mediaType: string)
    ensures FirstMatch(PROCESSORS, mediaType) ==
            if |mediaType| >= 6 && Strings.Spells(mediaType[..6], "image/") then Some(ImageProcessor)
            else if NamesPdf(mediaType) then Some(PdfProcessor)
            else None
  {
    ImageByPrefix(mediaType);
    PdfByName(mediaType);
    hide NamesPdf, Strings.Spells;
    FirstOfTwo(mediaType);
  }

  lemma FirstOfTwo(mediaType: string)
    ensures FirstMatch(PROCESSORS, mediaType) ==
            if ImageProcessor.CanProcess(mediaType) then Some(ImageProcessor)
            else if PdfProcessor.CanProcess(mediaType) then Some(PdfProcessor)
            else None
  {
    assert PROCESSORS[0] == ImageProcessor && PROCESSORS[1..] == [PdfProcessor];
    assert FirstMatch([PdfProcessor], mediaType) ==
           if PdfProcessor.CanProcess(mediaType) then Some(PdfProcessor) else None;
  }

  lemma PdfByName(mediaType: string)
    ensures PdfProcessor.CanProcess(mediaType) <==> NamesPdf(mediaType)
  {
    hide Strings.NamesWord, Normalize;
    NormalizedWord(mediaType, "application/pdf");
    NormalizedWord(mediaType, "application/x-pdf");
  }

  ghost predicate NamesPdf(mediaType: string) {
    Strings.NamesWord(mediaType, "application/pdf") || Strings.NamesWord(mediaType, "application/x-pdf")
  }

  lemma ImageByPrefix(mediaType: string)
    ensures ImageProcessor.CanProcess(mediaType) <==>
              |mediaType| >= 6 && Strings.Spells(mediaType[..6], "image/")
  {
    var lower := Strings.ToLower(mediaType);
    if lower in {"image/png", "image/jpeg", "image/jpg", "image/webp", "image/gif"} {
      assert lower[..6] == "image/";
    }
    if |mediaType| >= 6 {
      assert Strings.ToLower(mediaType[..6]) == lower[..6];
      Strings.SpellsLower(mediaType[..6], "image/");
    }
  }

  /** An accepted media type is stored as one of the six literals, and exactly one processor claims it. */
  lemma AcceptedHasOneProcessor(mediaType: string)
    requires IsSupportedMediaType(Normalize(mediaType))
    ensures var m := Normalize(mediaType);
            && m in {"image/png", "image/jpeg", "image/jpg", "image/webp", "image/gif", "application/pdf"}
            && ImageProcessor.CanProcess(m) != PdfProcessor.CanProcess(m)
            && FirstMatch(PROCESSORS, m) == Some(if m == "application/pdf" then PdfProcessor else ImageProcessor)
  {
    var m := Normalize(mediaType);
    NormalizeIdempotent(mediaType);
    Strings.ToLowerIdempotent(Strings.TrimSpace(mediaType));
    ImageClaims(m);
    PdfClaims(m);
    assert PROCESSORS[0] == ImageProcessor && PROCESSORS[1..] == [PdfProcessor];
    assert FirstMatch([PdfProcessor], m) == if PdfProcessor.CanProcess(m) then Some(PdfProcessor) else None;
  }

  lemma ImageClaims(m: string)
    requires m in SUPPORTED && Strings.ToLower(m) == m
    ensures ImageProcessor.CanProcess(m) <==> m != "application/pdf"
  {
    if m == "application/pdf" {
      assert m[0] == 'a' && "image/"[0] == 'i';
    }
  }

  lemma PdfClaims(m: string)
    requires m in SUPPORTED && Normalize(m) == m
    ensures PdfProcessor.CanProcess(m) <==> m == "application/pdf"
  {
    assert "application/x-pdf" !in SUPPORTED by {
      assert "application/x-pdf"[12] == 'x' && "application/pdf"[12] == 'p';
      assert |"image/png"| < 17 && |"image/jpeg"| < 17 && |"image/jpg"| < 17;
      assert |"image/webp"| < 17 && |"image/gif"| < 17;
    }
  }

  lemma NormalizeIdempotent(mediaType: string)
    ensures Normalize(Normalize(mediaType)) == Normalize(mediaType)
  {
    var t := Strings.TrimSpace(mediaType);
    var m := Strings.ToLower(t);
    Strings.TrimSpaceEnds(mediaType);
    if m != "" {
      assert m[0] == Strings.LowerChar(t[0]) && m[|m| - 1] == Strings.LowerChar(t[|t| - 1]);
    }
    assert Strings.TrimSpace(m) == m;
    Strings.ToLowerIdempotent(t);
  }
}
