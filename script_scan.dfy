// The script half of CodeOverview.ScanProjectScripts, stated as functions
// of the script list and the configuration: the totals, the editor-script
// count and the two offender lists (mediumScripts and badScripts).
module ScriptScan {
  import opened Text
  import opened LineWeight

  const EditorFlag: string := "using UnityEditor;"

  /** A script asset of the project: its file name and its text. */
  datatype TextAsset = TextAsset(name: string, text: string)

  /** CodeOverview.Script: a listed script and its weight. The editor action
    * that opens the file is not part of the model. */
  datatype Script = Script(lineCount: int, fileName: string)

  /** CodeOverview.Config: the two thresholds and the excluded script names. */
  datatype Config = Config(goodThreshold: int, mediumThreshold: int, excludedScripts: seq<string>)

  /** The settings used when no configuration file exists yet. */
  function DefaultConfig(): Config {
    Config(150, 300, [])
  }

  datatype Tier = Good | Medium | Bad

  function Severity(t: Tier): nat {
    match t
    case Good => 0
    case Medium => 1
    case Bad => 2
  }

  /** The bucket a script of weight `weight` falls in: the bad threshold is
    * tested first, and both tests are inclusive. */
  function Classify(weight: int, config: Config): Tier {
    if weight >= config.mediumThreshold then Bad
    else if weight >= config.goodThreshold then Medium
    else Good
  }

  /** Bad exactly from the medium threshold up; medium exactly from the good
    * threshold up to just below the medium one; good below both. */
  lemma ClassifyBounds(weight: int, config: Config)
    ensures Classify(weight, config) == Bad <==> weight >= config.mediumThreshold
    ensures Classify(weight, config) == Medium <==>
      config.goodThreshold <= weight < config.mediumThreshold
    ensures Classify(weight, config) == Good <==>
      weight < config.goodThreshold && weight < config.mediumThreshold
  {
  }

  /** A heavier script never lands in a milder bucket, whatever the
    * thresholds (even when the good threshold exceeds the medium one). */
  lemma ClassifyMonotone(w1: int, w2: int, config: Config)
    requires w1 <= w2
    ensures Severity(Classify(w1, config)) <= Severity(Classify(w2, config))
  {
  }

  /** With the default thresholds 150 and 300. */
  lemma DefaultBoundaries()
    ensures Classify(149, DefaultConfig()) == Good
    ensures Classify(150, DefaultConfig()) == Medium
    ensures Classify(299, DefaultConfig()) == Medium
    ensures Classify(300, DefaultConfig()) == Bad
    ensures Classify(301, DefaultConfig()) == Bad
  {
  }

  /** With the defaults no name is excluded, so every script of weight 150
    * or more is listed, in the list of its own bucket. */
  lemma DefaultListsEveryHeavyScript(script: TextAsset)
    requires Weight(script.text) >= 150
    ensures Listed(script, DefaultConfig(), Classify(Weight(script.text), DefaultConfig()))
              == [Script(Weight(script.text), script.name)]
    ensures Classify(Weight(script.text), DefaultConfig()) != Good
  {
  }

  /** Sum of the weights of all the scripts, excluded ones included. */
  function TotalWeight(scripts: seq<TextAsset>): nat {
    if |scripts| == 0 then 0
    else TotalWeight(scripts[..|scripts| - 1]) + Weight(scripts[|scripts| - 1].text)
  }

  predicate IsEditorScript(script: TextAsset) {
    Contains(script.text, EditorFlag)
  }

  /** Number of scripts whose text contains the editor flag. */
  function EditorCount(scripts: seq<TextAsset>): (n: nat)
    ensures n <= |scripts|
  {
    if |scripts| == 0 then 0
    else EditorCount(scripts[..|scripts| - 1]) + (if IsEditorScript(scripts[|scripts| - 1]) then 1 else 0)
  }

  /** The record a script adds to the list of `tier`, if any. */
  function Listed(script: TextAsset, config: Config, tier: Tier): seq<Script> {
    var w := Weight(script.text);
    if script.name !in config.excludedScripts && Classify(w, config) == tier
    then [Script(w, script.name)]
    else []
  }

  /** The offender list of `tier` after the scan loop, in script order. */
  function Offenders(scripts: seq<TextAsset>, config: Config, tier: Tier): seq<Script> {
    if |scripts| == 0 then []
    else Offenders(scripts[..|scripts| - 1], config, tier) + Listed(scripts[|scripts| - 1], config, tier)
  }

  /** What one more script adds to each running result of the scan loop. */
  lemma ScanStep(scripts: seq<TextAsset>, config: Config, i: int)
    requires 0 <= i < |scripts|
    ensures TotalWeight(scripts[..i + 1]) == TotalWeight(scripts[..i]) + Weight(scripts[i].text)
    ensures EditorCount(scripts[..i + 1]) ==
              EditorCount(scripts[..i]) + (if IsEditorScript(scripts[i]) then 1 else 0)
    ensures Offenders(scripts[..i + 1], config, Bad) ==
              Offenders(scripts[..i], config, Bad) + Listed(scripts[i], config, Bad)
    ensures Offenders(scripts[..i + 1], config, Medium) ==
              Offenders(scripts[..i], config, Medium) + Listed(scripts[i], config, Medium)
  {
    assert scripts[..i + 1][..i] == scripts[..i];
  }

  /** `e` is the record of the script at index `i`. */
  ghost predicate RecordOf(scripts: seq<TextAsset>, i: int, e: Script) {
    0 <= i < |scripts| && e == Script(Weight(scripts[i].text), scripts[i].name)
  }

  /** Every listed entry is a non-excluded script of the right tier, carrying
    * that script's own weight. */
  lemma {:induction false} OffendersSound(scripts: seq<TextAsset>, config: Config, tier: Tier)
    ensures forall e :: e in Offenders(scripts, config, tier) ==>
              e.fileName !in config.excludedScripts && Classify(e.lineCount, config) == tier
              && exists i :: RecordOf(scripts, i, e)
  {
    if |scripts| > 0 {
      var n := |scripts| - 1;
      OffendersSound(scripts[..n], config, tier);
      forall e | e in Offenders(scripts, config, tier)
        ensures e.fileName !in config.excludedScripts && Classify(e.lineCount, config) == tier
        ensures exists i :: RecordOf(scripts, i, e)
      {
        if e in Offenders(scripts[..n], config, tier) {
          var i :| RecordOf(scripts[..n], i, e);
          assert RecordOf(scripts, i, e);
        } else {
          assert RecordOf(scripts, n, e);
        }
      }
    }
  }

  /** Every non-excluded script of the tier is listed with its weight. */
  lemma {:induction false} OffendersComplete(scripts: seq<TextAsset>, config: Config, tier: Tier)
    ensures forall i ::
              0 <= i < |scripts| && scripts[i].name !in config.excludedScripts
              && Classify(Weight(scripts[i].text), config) == tier
              ==> Script(Weight(scripts[i].text), scripts[i].name) in Offenders(scripts, config, tier)
  {
    if |scripts| > 0 {
      var n := |scripts| - 1;
      OffendersComplete(scripts[..n], config, tier);
      forall i | 0 <= i < |scripts| && scripts[i].name !in config.excludedScripts
        && Classify(Weight(scripts[i].text), config) == tier
        ensures Script(Weight(scripts[i].text), scripts[i].name) in Offenders(scripts, config, tier)
      {
        if i < n {
          assert scripts[..n][i] == scripts[i];
        }
      }
    }
  }

  /** No record is on both lists, and no excluded name is on either. */
  lemma OffendersDisjoint(scripts: seq<TextAsset>, config: Config)
    ensures forall e :: e in Offenders(scripts, config, Bad) ==> e !in Offenders(scripts, config, Medium)
    ensures forall e ::
              e in Offenders(scripts, config, Bad) + Offenders(scripts, config, Medium)
              ==> e.fileName !in config.excludedScripts
  {
    OffendersSound(scripts, config, Bad);
    OffendersSound(scripts, config, Medium);
  }

  /** Each script adds at most one record, to at most one of the lists. */
  lemma {:induction false} OffendersCount(scripts: seq<TextAsset>, config: Config)
    ensures |Offenders(scripts, config, Bad)| + |Offenders(scripts, config, Medium)| <= |scripts|
  {
    if |scripts| > 0 {
      OffendersCount(scripts[..|scripts| - 1], config);
    }
  }
}
