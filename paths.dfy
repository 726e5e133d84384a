/** Path resolution for the builtin dataset tables: `os.path.join` restricted
    to two arguments, and the rule that an annotation path that already names
    a URI is used verbatim. */
module Paths {
  import opened Strings

  /** The separator that marks a path fragment as a URI (`s3://...`). */
  const UriMarker: string := "://"

  /** A fragment that `os.path.join` appends to the root rather than
      letting it replace the root. */
  predicate IsRelative(frag: string)
  {
    frag == [] || frag[0] != '/'
  }

  /** `os.path.join(root, frag)` with two arguments: an absolute fragment
      replaces the root; otherwise one '/' is put between the two unless the
      root is empty or already ends with '/'. No normalisation of `..`. */
  function Join(root: string, frag: string): (r: string)
    ensures !IsRelative(frag) ==> r == frag
    ensures IsRelative(frag) ==> |r| >= |root| + |frag| && r[..|root|] == root && r[|r| - |frag|..] == frag
    ensures IsRelative(frag) && root != [] && root[|root| - 1] != '/' ==>
              |r| == |root| + 1 + |frag| && r[|root|] == '/'
    ensures IsRelative(frag) && (root == [] || root[|root| - 1] == '/') ==> |r| == |root| + |frag|
  {
    if !IsRelative(frag) then frag
    else if root == [] || root[|root| - 1] == '/' then root + frag
    else root + "/" + frag
  }

  /** The annotation-path rule shared by every COCO-style family: a path
      containing "://" is passed through, any other is joined under `root`. */
  function ResolveAnnotation(root: string, path: string): (r: string)
    ensures (exists j :: OccursAt(path, UriMarker, j)) ==> r == path
    ensures !(exists j :: OccursAt(path, UriMarker, j)) ==> r == Join(root, path)
  {
    ContainsIff(path, UriMarker);
    if !Contains(path, UriMarker) then Join(root, path) else path
  }
}
