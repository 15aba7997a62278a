/** Element names of the stream plane and the name-level classifier
    (src/stream/naming.rs). */
module Naming {
  import opened Prelude

  const DEMUX := "demux"
  const VIDEO_QUEUE := "video-queue"
  const AUDIO_QUEUE := "audio-queue"
  const OUTPUT_TEE_VIDEO := "output_tee_video"
  const OUTPUT_TEE_AUDIO := "output_tee_audio"
  const SRT_SOURCE := "srt_source"
  const WHIP_SINK_STEM := "whip-sink"
  const VIDEO_DECODER_STEM := "avdec-h264"

  /** The viewer-independent elements. */
  const CORE_NAMES := {DEMUX, VIDEO_QUEUE, AUDIO_QUEUE, OUTPUT_TEE_VIDEO, OUTPUT_TEE_AUDIO, SRT_SOURCE}

  /** The four elements one viewer's branch can own. */
  datatype BranchKind = WhipSink | VideoQueue | AudioQueue | VideoDecoder

  function Stem(kind: BranchKind): string {
    match kind
    case WhipSink => WHIP_SINK_STEM
    case VideoQueue => VIDEO_QUEUE
    case AudioQueue => AUDIO_QUEUE
    case VideoDecoder => VIDEO_DECODER_STEM
  }

  function BranchName(kind: BranchKind, id: string): string {
    Stem(kind) + "-" + id
  }

  /** Every name a branch for `id` can put into the pipeline. */
  function BranchNames(id: string): set<string> {
    {BranchName(WhipSink, id), BranchName(VideoQueue, id), BranchName(AudioQueue, id), BranchName(VideoDecoder, id)}
  }

  function StripPrefix(name: string, prefix: string): Option<string> {
    if prefix <= name then Some(name[|prefix|..]) else None
  }

  function StripStem(name: string, stem: string): Option<string> {
    match StripPrefix(name, stem)
    case None => None
    case Some(rest) => StripPrefix(rest, "-")
  }

  /** The search over the stem array: the first stem that strips wins. */
  function FirstMatch(name: string, stems: seq<string>): Option<string> {
    if stems == [] then None
    else match StripStem(name, stems[0])
         case Some(id) => Some(id)
         case None => FirstMatch(name, stems[1..])
  }

  function BranchIdFromName(name: string): Option<string> {
    FirstMatch(name, [WHIP_SINK_STEM, VIDEO_QUEUE, AUDIO_QUEUE, VIDEO_DECODER_STEM])
  }

  /** The names as the pipeline spells them. */
  lemma NamesAreSpelled(id: string)
    ensures BranchNames(id) == {"whip-sink-" + id, "video-queue-" + id, "audio-queue-" + id, "avdec-h264-" + id}
    ensures BranchName(WhipSink, id) == "whip-sink-" + id && BranchName(VideoQueue, id) == "video-queue-" + id
    ensures BranchName(AudioQueue, id) == "audio-queue-" + id && BranchName(VideoDecoder, id) == "avdec-h264-" + id
  {
    assert WHIP_SINK_STEM + "-" == "whip-sink-" && VIDEO_QUEUE + "-" == "video-queue-";
    assert AUDIO_QUEUE + "-" == "audio-queue-" && VIDEO_DECODER_STEM + "-" == "avdec-h264-";
  }

  lemma StripStemInverts(name: string, stem: string, id: string)
    ensures StripStem(name, stem) == Some(id) <==> name == stem + "-" + id
  {
    if stem <= name {
      var rest := name[|stem|..];
      assert name == stem + rest;
      if "-" <= rest {
        assert rest == "-" + rest[1..];
        assert name == stem + "-" + rest[1..];
      }
    }
    if name == stem + "-" + id {
      assert name == stem + ("-" + id);
      assert name[|stem|..] == "-" + id;
    }
  }

  /** No two of the four stems can both head one name: they differ within their
      first two characters. */
  lemma StemsNeverOverlap(k: BranchKind, k': BranchKind, id: string, id': string)
    requires BranchName(k, id) == BranchName(k', id')
    ensures k == k' && id == id'
  {
    var name := BranchName(k, id);
    assert name[0] == Stem(k)[0] == Stem(k')[0] && name[1] == Stem(k)[1] == Stem(k')[1];
    assert k == k';
    assert id == name[|Stem(k)| + 1..] == id';
  }

  lemma {:induction false} FirstMatchAmong(name: string, stems: seq<string>)
    ensures FirstMatch(name, stems).None? <==> forall i :: 0 <= i < |stems| ==> StripStem(name, stems[i]).None?
    ensures FirstMatch(name, stems).Some? ==>
              exists i :: 0 <= i < |stems| && StripStem(name, stems[i]) == FirstMatch(name, stems)
  {
    if stems != [] && StripStem(name, stems[0]).None? {
      FirstMatchAmong(name, stems[1..]);
      assert forall i :: 1 <= i < |stems| ==> stems[i] == stems[1..][i - 1];
      assert forall i :: 0 <= i < |stems| - 1 ==> stems[1..][i] == stems[i + 1];
    }
  }

  lemma FoundNameIsABranchs(name: string, id: string)
    requires BranchIdFromName(name) == Some(id)
    ensures exists k :: name == BranchName(k, id)
  {
    var stems := [WHIP_SINK_STEM, VIDEO_QUEUE, AUDIO_QUEUE, VIDEO_DECODER_STEM];
    FirstMatchAmong(name, stems);
    var i :| 0 <= i < |stems| && StripStem(name, stems[i]) == Some(id);
    StripStemInverts(name, stems[i], id);
    var kind := if i == 0 then WhipSink else if i == 1 then VideoQueue else if i == 2 then AudioQueue else VideoDecoder;
    assert stems[i] == Stem(kind);
    assert name == BranchName(kind, id);
  }

  /** Name round trip. */
  lemma BranchNameIsFound(kind: BranchKind, id: string)
    ensures BranchIdFromName(BranchName(kind, id)) == Some(id)
  {
    var name := BranchName(kind, id);
    var stems := [WHIP_SINK_STEM, VIDEO_QUEUE, AUDIO_QUEUE, VIDEO_DECODER_STEM];
    var i := if kind.WhipSink? then 0 else if kind.VideoQueue? then 1 else if kind.AudioQueue? then 2 else 3;
    assert stems[i] == Stem(kind);
    StripStemInverts(name, stems[i], id);
    FirstMatchAmong(name, stems);
    var found := BranchIdFromName(name).value;
    FoundNameIsABranchs(name, found);
    var kind' :| name == BranchName(kind', found);
    StemsNeverOverlap(kind, kind', id, found);
  }

  /** The classifier inverts the four constructors, and nothing else classifies:
      it answers `Some(id)` exactly for the four names of the branch `id`. */
  lemma ClassifierInvertsNames(name: string, id: string)
    ensures BranchIdFromName(name) == Some(id) <==> name in BranchNames(id)
  {
    if BranchIdFromName(name) == Some(id) {
      FoundNameIsABranchs(name, id);
    }
    if name in BranchNames(id) {
      var kind :| name == BranchName(kind, id);
      BranchNameIsFound(kind, id);
    }
  }

  lemma CoreNameIsNoBranchName(name: string, kind: BranchKind, id: string)
    requires name in CORE_NAMES
    ensures name != BranchName(kind, id)
  {
    var b := BranchName(kind, id);
    assert b[0] == Stem(kind)[0] && b[|Stem(kind)|] == '-';
  }

  /** Errors from viewer-independent elements never look like a branch's. */
  lemma CoreNamesNeverClassify(name: string)
    requires name in CORE_NAMES
    ensures BranchIdFromName(name) == None
  {
    forall id, kind ensures name != BranchName(kind, id) {
      CoreNameIsNoBranchName(name, kind, id);
    }
    forall id ensures BranchIdFromName(name) != Some(id) {
      ClassifierInvertsNames(name, id);
    }
  }

  /** Lookups by name for one viewer can hit neither another viewer's elements
      nor a core element. */
  lemma BranchesShareNoName(id: string, id': string)
    ensures id != id' ==> BranchNames(id) !! BranchNames(id')
    ensures BranchNames(id) !! CORE_NAMES
  {
    forall name | name in BranchNames(id) ensures name !in CORE_NAMES && (id != id' ==> name !in BranchNames(id')) {
      ClassifierInvertsNames(name, id);
      ClassifierInvertsNames(name, id');
      if name in CORE_NAMES {
        CoreNamesNeverClassify(name);
      }
    }
  }
}
