/** The fixed choices the page offers: one button per entry. */
module Catalogue {

  const YoutubeTopics: seq<string> := [
    "Music", "Fashion", "Unboxing", "Art", "Business",
    "How-To", "Education", "Gaming", "Review", "Technology"
  ]

  const YoutubeAdjectives: seq<string> := ["Funny", "Serious", "Creative", "Informative", "Exciting"]

  const YoutubeDemographics: seq<string> := ["4-10", "10-18", "18-28", "28-40", "40-55", "55-72", "72+"]

  /** Every age demographic on offer is between one and five characters long. */
  lemma DemographicsLength(d: string)
    requires d in YoutubeDemographics
    ensures 1 <= |d| <= 5
  {
  }

  /** No topic or adjective contains a comma or a line break, so the prompt lists them unambiguously. */
  lemma EntriesPlain(x: string)
    requires x in YoutubeTopics || x in YoutubeAdjectives
    ensures ',' !in x && '\n' !in x
  {
  }

  /** No age demographic contains a line break. */
  lemma DemographicsPlain(d: string)
    requires d in YoutubeDemographics
    ensures '\n' !in d
  {
  }
}
