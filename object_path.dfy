/** Object paths of the D-Bus message bus, as the section "Valid Object
    Paths" of the D-Bus Specification defines them. */
module ObjectPath {

  /** The characters a path element may hold: [A-Z][a-z][0-9]_. */
  predicate IsElementChar(c: char) {
    ('A' <= c <= 'Z') || ('a' <= c <= 'z') || ('0' <= c <= '9') || c == '_'
  }

  /** A path element: not empty, and only element characters. */
  predicate IsElement(e: string) {
    |e| > 0 && forall i :: 0 <= i < |e| ==> IsElementChar(e[i])
  }

  /** A valid object path: it begins with '/', holds nothing but element
      characters and '/', never has two '/' in a row (no element is empty),
      and ends in '/' only when it is the root path "/". */
  predicate IsValid(p: string) {
    && |p| > 0
    && p[0] == '/'
    && (forall i :: 0 <= i < |p| ==> p[i] == '/' || IsElementChar(p[i]))
    && (forall i :: 0 < i < |p| && p[i] == '/' ==> p[i - 1] != '/')
    && (|p| > 1 ==> p[|p| - 1] != '/')
  }

  /** The root path. */
  const Root := "/"

  /** The path of the object named `e` below `parent`. */
  function Child(parent: string, e: string): string {
    if parent == Root then parent + e else parent + "/" + e
  }

  /** A valid path with a valid element appended is a valid path other than
      the root. */
  lemma ChildValid(parent: string, e: string)
    requires IsValid(parent) && IsElement(e)
    ensures IsValid(Child(parent, e)) && Child(parent, e) != Root
  {
    var p := Child(parent, e);
    var n := |p| - |e|;
    assert p[|p| - 1] == e[|e| - 1];
    assert forall i :: n <= i < |p| ==> p[i] == e[i - n];
    assert p[n - 1] == '/';
    forall i | 0 < i < |p| && p[i] == '/' ensures p[i - 1] != '/' {
      if parent != Root && i == |parent| {
        assert p[i - 1] == parent[|parent| - 1];
      } else if parent != Root && i < |parent| {
        assert p[i] == parent[i] && p[i - 1] == parent[i - 1];
      }
    }
  }
}
