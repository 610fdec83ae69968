/** Path classifiers of the commit scorer: test-like files and dependency manifests
    (backend/repofind/fetch_commits.py, is_test_file and is_dependency_file). */
module FileClassifier {
  import opened Text

  predicate HasTestMarker(s: string) {
    Contains(s, "test") || Contains(s, "spec")
  }

  /** is_test_file: an empty path is not a test; otherwise the lower-cased basename,
      then every '/'-separated part of the lower-cased path, is searched for "test" or "spec". */
  predicate IsTestFile(path: string) {
    if path == "" then false
    else
      var lower := Lower(path);
      var parts := Split(lower, '/');
      HasTestMarker(Basename(lower)) || exists k :: 0 <= k < |parts| && HasTestMarker(parts[k])
  }

  /** Checking the basename and every segment is the same as searching the whole lower-cased
      path: the two markers hold no '/', so an occurrence never straddles a segment boundary. */
  lemma IsTestFileIffSubstring(path: string)
    ensures IsTestFile(path) <==> Contains(Lower(path), "test") || Contains(Lower(path), "spec")
  {
    var lower := Lower(path);
    if path == "" {
      assert lower == "";
      EmptyContainsNothing("test");
      EmptyContainsNothing("spec");
    } else {
      var parts := Split(lower, '/');
      ContainsInSomePiece(lower, '/', "test");
      ContainsInSomePiece(lower, '/', "spec");
      var base := Basename(lower);
      assert base == lower[|lower| - |base|..];
      if Contains(base, "test") {
        ContainsSuffix(lower, |lower| - |base|, "test");
      }
      if Contains(base, "spec") {
        ContainsSuffix(lower, |lower| - |base|, "spec");
      }
      if HasTestMarker(lower) {
        if Contains(lower, "test") {
          var k :| 0 <= k < |parts| && Contains(parts[k], "test");
          assert HasTestMarker(parts[k]);
        } else {
          var k :| 0 <= k < |parts| && Contains(parts[k], "spec");
          assert HasTestMarker(parts[k]);
        }
      }
    }
  }

  /** The sixteen manifest and lock-file names; the comparison is case-sensitive. */
  const DependencyFileNames: seq<string> := [
    "package.json", "package-lock.json", "yarn.lock",
    "go.mod", "go.sum",
    "requirements.txt", "Pipfile", "poetry.lock",
    "pom.xml", "build.gradle",
    "Cargo.toml", "Cargo.lock",
    "Gemfile", "Gemfile.lock",
    "composer.json", "composer.lock"
  ]

  /** is_dependency_file: the basename is a listed manifest name, or the path holds a
      vendored-dependency directory marker anywhere. */
  predicate IsDependencyFile(path: string) {
    Basename(path) in DependencyFileNames
    || Contains(path, "node_modules/")
    || Contains(path, "vendor/")
  }

  /** A vendored directory marker makes any path a dependency file. */
  lemma VendoredPathIsDependency(path: string)
    requires Contains(path, "node_modules/") || Contains(path, "vendor/")
    ensures IsDependencyFile(path)
  {
  }

  /** Every listed name is classified as a dependency wherever it sits. */
  lemma ListedNameIsDependency(dir: string, name: string)
    requires name in DependencyFileNames
    ensures IsDependencyFile(dir + "/" + name)
  {
    var p := dir + "/" + name;
    NoSlashInDependencyNames(name);
    assert p[|dir|] == '/';
    assert p[|dir| + 1..] == name;
    BasenameAfterSlash(p, |dir|);
  }

  lemma NoSlashInDependencyNames(name: string)
    requires name in DependencyFileNames
    ensures '/' !in name
  {
    if name == "package.json" {
    } else if name == "package-lock.json" {
    } else if name == "yarn.lock" {
    } else if name == "go.mod" {
    } else if name == "go.sum" {
    } else if name == "requirements.txt" {
    } else if name == "Pipfile" {
    } else if name == "poetry.lock" {
    } else if name == "pom.xml" {
    } else if name == "build.gradle" {
    } else if name == "Cargo.toml" {
    } else if name == "Cargo.lock" {
    } else if name == "Gemfile" {
    } else if name == "Gemfile.lock" {
    } else if name == "composer.json" {
    } else if name == "composer.lock" {
    }
  }

  /** When the last '/' of `p` is at `i`, the basename is everything after it. */
  lemma BasenameAfterSlash(p: string, i: nat)
    requires i < |p| && p[i] == '/' && '/' !in p[i + 1..]
    ensures Basename(p) == p[i + 1..]
  {
    var b := Basename(p);
    var j := |p| - |b| - 1;
    assert forall k :: i < k < |p| ==> p[k] != '/' by {
      forall k | i < k < |p| ensures p[k] != '/' {
        assert p[i + 1..][k - i - 1] == p[k];
      }
    }
    assert forall k :: j < k < |p| ==> p[k] != '/' by {
      forall k | j < k < |p| ensures p[k] != '/' {
        assert b[k - j - 1] == p[k];
      }
    }
    assert i <= j && j <= i;
  }

  /** For a bare file name the classification is exact, case-sensitive membership in the list:
      "Package.json" or "REQUIREMENTS.TXT" are not dependency files. */
  lemma BareNameIsDependencyIffListed(name: string)
    requires '/' !in name
    ensures IsDependencyFile(name) <==> name in DependencyFileNames
  {
    NoMarkerIn(name);
  }

  lemma NoMarkerIn(s: string)
    requires '/' !in s
    ensures !Contains(s, "node_modules/") && !Contains(s, "vendor/")
  {
    if Contains(s, "vendor/") {
      ContainsChar(s, "vendor/", '/');
      assert false;
    }
    if Contains(s, "node_modules/") {
      ContainsChar(s, "node_modules/", '/');
      assert false;
    }
  }
}
