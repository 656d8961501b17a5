/** The container-type label shown for each listed row. */
module Containers {

  /** The label for a stored `container_type`; unknown codes read "不明". */
  function ContainerLabel(containerType: int): (text: string)
    ensures containerType == 1 ==> text == "液体"
    ensures containerType == 2 ==> text == "チューブ"
    ensures containerType == 3 ==> text == "粉末"
    ensures containerType !in {1, 2, 3} ==> text == "不明"
  {
    if containerType == 1 then "液体"
    else if containerType == 2 then "チューブ"
    else if containerType == 3 then "粉末"
    else "不明"
  }

  /**
   * The label determines the code: distinct known codes get distinct labels, and
   * only codes outside 1..3 fall back to "不明".
   */
  lemma LabelDeterminesCode(t: int, u: int)
    requires t in {1, 2, 3}
    ensures ContainerLabel(t) != "不明"
    ensures ContainerLabel(t) == ContainerLabel(u) <==> t == u
  {
  }
}
