// The CodeOverview editor window, reduced to the state its scan updates:
// the loaded scripts and types, the configuration, the counters and the two
// offender lists. The GUI, the configuration file and the asset database are
// not part of the model; their results are given to the constructor.
module Overview {
  import opened Text
  import opened LineWeight
  import opened TypeScan
  import opened ScriptScan
  import opened Ranking

  /** The path test of LoadProjectData: a C# file outside the package and
    * plugin folders. */
  function IsProjectScriptPath(path: string): (r: bool)
    ensures r <==> (!exists i :: OccursAt(path, "Package", i))
                   && (!exists i :: OccursAt(path, "Plugins", i))
                   && |path| >= 3 && path[|path| - 3..] == ".cs"
  {
    !Contains(path, "Package") && !Contains(path, "Plugins") && EndsWith(path, ".cs")
  }

  /** The asset paths whose scripts LoadProjectData loads, in their order. */
  function FilterPaths(paths: seq<string>): seq<string> {
    if |paths| == 0 then []
    else
      var last := paths[|paths| - 1];
      FilterPaths(paths[..|paths| - 1]) + (if IsProjectScriptPath(last) then [last] else [])
  }

  /** A path is kept exactly when it is one of the asset paths and passes the
    * filter; no more paths are kept than there are. */
  lemma {:induction false} FilterPathsMembers(paths: seq<string>)
    ensures forall p :: p in FilterPaths(paths) <==> p in paths && IsProjectScriptPath(p)
    ensures |FilterPaths(paths)| <= |paths|
  {
    if |paths| > 0 {
      var n := |paths| - 1;
      FilterPathsMembers(paths[..n]);
      assert paths == paths[..n] + [paths[n]];
    }
  }

  /** The path loop of LoadProjectData: keeps, in order, the asset paths
    * whose scripts are loaded. Loading the asset itself is not modelled. */
  method ProjectScriptPaths(assetsPaths: seq<string>) returns (kept: seq<string>)
    ensures kept == FilterPaths(assetsPaths)
  {
    kept := [];
    var i := 0;
    while i < |assetsPaths|
      invariant 0 <= i <= |assetsPaths|
      invariant kept == FilterPaths(assetsPaths[..i])
    {
      var assetPath := assetsPaths[i];
      assert assetsPaths[..i + 1][..i] == assetsPaths[..i] && assetsPaths[..i + 1][i] == assetPath;
      if IsProjectScriptPath(assetPath) {
        kept := kept + [assetPath];
      }
      i := i + 1;
    }
    assert assetsPaths[..i] == assetsPaths;
  }

  /** Which of the two offender lists ShowScripts is given. */
  datatype OffenderList = MediumList | BadList

  class CodeOverview {
    var mediumScripts: seq<Script>
    var badScripts: seq<Script>
    var allScripts: seq<TextAsset>
    var projectTypes: seq<TypeInfo>
    var config: Config
    var averageLineCount: real
    var scriptsCount: int
    var classCount: int
    var editorScriptsCount: int
    var monoBehavioursCount: int
    var nonMonoBehavioursCount: int
    var interfacesCount: int
    var totalLineCount: int

    /** What the window shows holds together: the class counter splits into
      * the two MonoBehaviour counters, and each listed script is in its
      * threshold band and not excluded. */
    ghost predicate Consistent()
      reads this
    {
      classCount == monoBehavioursCount + nonMonoBehavioursCount
      && (forall e :: e in badScripts ==>
            e.lineCount >= config.mediumThreshold && e.fileName !in config.excludedScripts)
      && (forall e :: e in mediumScripts ==>
            config.goodThreshold <= e.lineCount < config.mediumThreshold
            && e.fileName !in config.excludedScripts)
    }

    /** The window as ShowWindow leaves it after LoadConfig and LoadProjectData,
      * before the first scan: the loaded data, fresh counters, no lists. */
    constructor (scripts: seq<TextAsset>, types: seq<TypeInfo>, loadedConfig: Config)
      ensures allScripts == scripts && projectTypes == types && config == loadedConfig
      ensures mediumScripts == [] && badScripts == [] && averageLineCount == 0.0
      ensures scriptsCount == 0 && classCount == 0 && editorScriptsCount == 0
      ensures monoBehavioursCount == 0 && nonMonoBehavioursCount == 0
      ensures interfacesCount == 0 && totalLineCount == 0
      ensures Consistent()
    {
      allScripts, projectTypes, config := scripts, types, loadedConfig;
      mediumScripts, badScripts := [], [];
      averageLineCount := 0.0;
      scriptsCount, classCount, editorScriptsCount := 0, 0, 0;
      monoBehavioursCount, nonMonoBehavioursCount, interfacesCount, totalLineCount := 0, 0, 0, 0;
    }

    /** Recomputes every counter and both offender lists from the loaded
      * scripts, types and configuration, which it leaves unchanged. */
    method ScanProjectScripts()
      modifies this`scriptsCount, this`editorScriptsCount, this`totalLineCount
      modifies this`mediumScripts, this`badScripts, this`averageLineCount
      modifies this`classCount, this`monoBehavioursCount, this`nonMonoBehavioursCount
      modifies this`interfacesCount
      ensures scriptsCount == |allScripts|
      ensures totalLineCount == TotalWeight(allScripts)
      ensures editorScriptsCount == EditorCount(allScripts)
      ensures badScripts == Offenders(allScripts, config, Bad)
      ensures mediumScripts == Offenders(allScripts, config, Medium)
      ensures averageLineCount == if |allScripts| == 0 then old(averageLineCount)
                                  else (TotalWeight(allScripts) as real) / (|allScripts| as real)
      ensures interfacesCount == InterfaceCount(projectTypes)
      ensures classCount == ClassCount(projectTypes)
      ensures monoBehavioursCount == MonoBehaviourCount(projectTypes)
      ensures nonMonoBehavioursCount == NonMonoBehaviourCount(projectTypes)
      ensures Consistent()
    {
      ReadScripts();
      CountTypes();
      ClassCountSplit(projectTypes);
      OffendersSound(allScripts, config, Bad);
      OffendersSound(allScripts, config, Medium);
    }

    /** The script reading part of ScanProjectScripts. */
    method ReadScripts()
      modifies this`scriptsCount, this`editorScriptsCount, this`totalLineCount
      modifies this`mediumScripts, this`badScripts, this`averageLineCount
      ensures scriptsCount == |allScripts|
      ensures totalLineCount == TotalWeight(allScripts)
      ensures editorScriptsCount == EditorCount(allScripts)
      ensures badScripts == Offenders(allScripts, config, Bad)
      ensures mediumScripts == Offenders(allScripts, config, Medium)
      ensures averageLineCount == if |allScripts| == 0 then old(averageLineCount)
                                  else (TotalWeight(allScripts) as real) / (|allScripts| as real)
    {
      scriptsCount := |allScripts|;
      editorScriptsCount := 0;
      totalLineCount := 0;

      mediumScripts := [];
      badScripts := [];

      if |allScripts| != 0 {
        // scan scripts
        var i := 0;
        while i < |allScripts|
          invariant 0 <= i <= |allScripts|
          modifies this`totalLineCount, this`editorScriptsCount, this`badScripts, this`mediumScripts
          invariant totalLineCount == TotalWeight(allScripts[..i])
          invariant editorScriptsCount == EditorCount(allScripts[..i])
          invariant badScripts == Offenders(allScripts[..i], config, Bad)
          invariant mediumScripts == Offenders(allScripts[..i], config, Medium)
        {
          ScanStep(allScripts, config, i);
          ScanScript(allScripts[i]);
          i := i + 1;
        }
        assert allScripts[..i] == allScripts;

        // count average lines
        averageLineCount := (totalLineCount as real) / (scriptsCount as real);
      }
    }

    /** The body of the loop over the scripts: weighs one script, adds it to
      * the totals, and lists it unless its name is excluded or it is light
      * enough. Returning early is the loop's `continue`. */
    method ScanScript(script: TextAsset)
      modifies this`totalLineCount, this`editorScriptsCount, this`badScripts, this`mediumScripts
      ensures totalLineCount == old(totalLineCount) + Weight(script.text)
      ensures editorScriptsCount == old(editorScriptsCount) + (if IsEditorScript(script) then 1 else 0)
      ensures badScripts == old(badScripts) + Listed(script, config, Bad)
      ensures mediumScripts == old(mediumScripts) + Listed(script, config, Medium)
    {
      var classLineCount := CountWeight(script.text);

      totalLineCount := totalLineCount + classLineCount;

      // count editor script
      if Contains(script.text, EditorFlag) {
        editorScriptsCount := editorScriptsCount + 1;
      }

      // skip this script
      if script.name in config.excludedScripts {
        return;
      }

      // gets bad and medium files
      if classLineCount >= config.mediumThreshold {
        badScripts := badScripts + [Script(classLineCount, script.name)];
      } else if classLineCount >= config.goodThreshold {
        mediumScripts := mediumScripts + [Script(classLineCount, script.name)];
      }
    }

    /** The reflectivity part of ScanProjectScripts. */
    method CountTypes()
      modifies this`classCount, this`monoBehavioursCount, this`nonMonoBehavioursCount
      modifies this`interfacesCount
      ensures interfacesCount == InterfaceCount(projectTypes)
      ensures classCount == ClassCount(projectTypes)
      ensures monoBehavioursCount == MonoBehaviourCount(projectTypes)
      ensures nonMonoBehavioursCount == NonMonoBehaviourCount(projectTypes)
    {
      classCount := 0;
      monoBehavioursCount := 0;
      nonMonoBehavioursCount := 0;
      interfacesCount := 0;

      var j := 0;
      while j < |projectTypes|
        invariant 0 <= j <= |projectTypes|
        invariant interfacesCount == InterfaceCount(projectTypes[..j])
        invariant classCount == ClassCount(projectTypes[..j])
        invariant monoBehavioursCount == MonoBehaviourCount(projectTypes[..j])
        invariant nonMonoBehavioursCount == NonMonoBehaviourCount(projectTypes[..j])
      {
        var t := projectTypes[j];
        assert projectTypes[..j + 1][..j] == projectTypes[..j];

        if t.isInterface {
          interfacesCount := interfacesCount + 1;
        }

        if t.isClass {
          classCount := classCount + 1;

          var inherits := InheritsMonoBehaviour(t);
          if inherits {
            monoBehavioursCount := monoBehavioursCount + 1;
          } else {
            nonMonoBehavioursCount := nonMonoBehavioursCount + 1;
          }
        }
        j := j + 1;
      }
      assert projectTypes[..j] == projectTypes;
    }

    /** The sorting step of ShowScripts: the chosen list is put in ascending
      * order of line count in place; the other list is untouched. */
    method ShowScripts(which: OffenderList)
      modifies this`mediumScripts, this`badScripts
      ensures which == MediumList ==>
        SortedByLineCount(mediumScripts) && multiset(mediumScripts) == multiset(old(mediumScripts))
        && badScripts == old(badScripts)
      ensures which == BadList ==>
        SortedByLineCount(badScripts) && multiset(badScripts) == multiset(old(badScripts))
        && mediumScripts == old(mediumScripts)
      ensures old(Consistent()) ==> Consistent()
    {
      var listToShow := if which == MediumList then mediumScripts else badScripts;
      var a := new Script[|listToShow|](k requires 0 <= k < |listToShow| => listToShow[k]);
      assert a[..] == listToShow;
      SortByLineCount(a);
      if which == MediumList {
        mediumScripts := a[..];
      } else {
        badScripts := a[..];
      }
      assert forall e :: e in a[..] <==> e in listToShow by {
        assert forall e :: e in a[..] <==> e in multiset(a[..]);
        assert forall e :: e in listToShow <==> e in multiset(listToShow);
      }
    }
  }
}
