/**
  Attaching bound-column information to parameter markers. The binder for this
  (ParameterMarkerSegmentBinder) is not part of this model; it is modelled by what the
  statement binders rely on: the marker list keeps its length and order, and a marker
  that is a key of the map gets that column's information, the others stay as they are.
*/
module ParameterMarkers {
  import opened Wrappers
  import opened Statements

  function Attach(marker: ParameterMarker, infos: map<ParameterMarker, ColumnBoundInfo>): ParameterMarker {
    if marker in infos then marker.(boundInfo := Some(infos[marker])) else marker
  }

  function BindMarkers(markers: seq<ParameterMarker>, infos: map<ParameterMarker, ColumnBoundInfo>): (r: seq<ParameterMarker>)
    ensures |r| == |markers|
    ensures forall i :: 0 <= i < |r| ==>
      && r[i].startIndex == markers[i].startIndex
      && r[i].stopIndex == markers[i].stopIndex
      && r[i].parameterIndex == markers[i].parameterIndex
      && r[i].boundInfo == (if markers[i] in infos then Some(infos[markers[i]]) else markers[i].boundInfo)
  {
    if |markers| == 0 then [] else [Attach(markers[0], infos)] + BindMarkers(markers[1..], infos)
  }
}
