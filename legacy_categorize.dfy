/** The categorisers of the older app (NeuronNook/lib/ai-categorize.ts):
    the same two OpenRouter loops as the current app's, with the same
    fallback. */
module LegacyCategorize {
  import opened Wrappers
  import opened Batching
  import Categorize

  /** `categorizeEmails`: `ask` is the OpenRouter call (`None` when it throws). */
  method CategorizeEmails(emails: seq<EmailItem>, ask: EmailItem -> Option<Categorization>)
    returns (results: map<string, Categorization>)
    ensures results == ResultsOf(emails, EmailKey, ask, Categorize.OpenRouterFallback)
    ensures results.Keys == Ids(emails, EmailKey)
  {
    results := CategorizeInBatches(emails, EmailKey, ask, Categorize.OpenRouterFallback);
  }

  /** `categorizeFiles` */
  method CategorizeFiles(files: seq<FileItem>, ask: FileItem -> Option<Categorization>)
    returns (results: map<string, Categorization>)
    ensures results == ResultsOf(files, FileKey, ask, Categorize.OpenRouterFallback)
    ensures results.Keys == Ids(files, FileKey)
  {
    results := CategorizeInBatches(files, FileKey, ask, Categorize.OpenRouterFallback);
  }

  /** A file whose call throws, and that no later file shares an id with,
      is recorded as personal with confidence 0.5. */
  lemma FailedFileIsPersonal(files: seq<FileItem>, ask: FileItem -> Option<Categorization>, j: nat)
    requires j < |files| && ask(files[j]).None?
    requires forall l :: j < l < |files| ==> files[l].id != files[j].id
    ensures files[j].id in ResultsOf(files, FileKey, ask, Categorize.OpenRouterFallback)
    ensures var c := ResultsOf(files, FileKey, ask, Categorize.OpenRouterFallback)[files[j].id];
      c.category == Some("personal") && c.confidence == 0.5
  {
    ResultsLastWins(files, FileKey, ask, Categorize.OpenRouterFallback, j);
  }
}
