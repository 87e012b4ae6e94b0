/** The service catalog of backend/models/service.py. */
module ServiceCatalog {
  import opened Wrappers
  import Text
  import Tables

  datatype Service = Service(
    id: string,
    name: string,
    description: string,
    turnaround: string,
    supportedFormats: seq<string>)

  const TranscriptCleanup := Service(
    "transcript_cleanup",
    "Transcript Cleanup",
    "Professional cleaning and formatting of transcription files",
    "24-48 hours",
    [".txt", ".doc", ".docx", ".srt", ".vtt"])

  const CaptionsCleanup := Service(
    "captions_cleanup",
    "Captions & Subtitles Cleanup",
    "Clean and synchronize caption files for videos",
    "24 hours",
    [".srt", ".vtt", ".ass", ".sub"])

  const DubbingVoiceover := Service(
    "dubbing_voiceover",
    "Dubbing & Voiceover",
    "Professional voiceover services and audio dubbing",
    "48-72 hours",
    [".mp4", ".mov", ".avi", ".mp3", ".wav"])

  /** `SERVICES`, in the dict's insertion order. */
  const Services: seq<(string, Service)> := [
    ("transcript_cleanup", TranscriptCleanup),
    ("captions_cleanup", CaptionsCleanup),
    ("dubbing_voiceover", DubbingVoiceover)]

  /** `SERVICES.get(key)`. */
  function Lookup(key: string): (r: Option<Service>)
    ensures r.Some? <==> key in ["transcript_cleanup", "captions_cleanup", "dubbing_voiceover"]
    ensures r.Some? ==> r.value.id == key && (key, r.value) in Services
  {
    assert Tables.Keys(Services) == ["transcript_cleanup", "captions_cleanup", "dubbing_voiceover"];
    Tables.Get(Services, key)
  }

  /** The catalog has exactly three keys, and every entry's id is its key. */
  lemma CatalogKeys()
    ensures Tables.Keys(Services) == ["transcript_cleanup", "captions_cleanup", "dubbing_voiceover"]
    ensures forall i :: 0 <= i < |Services| ==> Services[i].1.id == Services[i].0
  {
  }

  /** Each key finds its own entry. */
  lemma LookupEntries()
    ensures Lookup("transcript_cleanup") == Some(TranscriptCleanup)
    ensures Lookup("captions_cleanup") == Some(CaptionsCleanup)
    ensures Lookup("dubbing_voiceover") == Some(DubbingVoiceover)
  {
  }

  ghost predicate WellFormedFormat(f: string)
  {
    |f| >= 2 && f[0] == '.' && Text.Lower(f) == f
  }

  /** Every supported format starts with `.` and is lower case. */
  lemma FormatsWellFormed()
    ensures forall i, f :: 0 <= i < |Services| && f in Services[i].1.supportedFormats ==> WellFormedFormat(f)
  {
    forall i, f | 0 <= i < |Services| && f in Services[i].1.supportedFormats
      ensures WellFormedFormat(f)
    {
      assert forall j :: 0 <= j < |f| ==> !Text.IsUpperAscii(f[j]);
      Text.LowerOfLower(f);
    }
  }

  /** Subtitle files are accepted by both cleanup services. */
  lemma SubtitlesSharedByCleanups()
    ensures ".srt" in TranscriptCleanup.supportedFormats && ".srt" in CaptionsCleanup.supportedFormats
    ensures ".vtt" in TranscriptCleanup.supportedFormats && ".vtt" in CaptionsCleanup.supportedFormats
  {
  }

  /** Media formats belong to dubbing alone: none of them is accepted by another service. */
  lemma MediaOnlyForDubbing()
    ensures ".mp4" in DubbingVoiceover.supportedFormats
    ensures forall f :: f in DubbingVoiceover.supportedFormats ==>
              f !in TranscriptCleanup.supportedFormats && f !in CaptionsCleanup.supportedFormats
  {
  }
}
