/** The Tailwind colour families the dashboard cards use to grade a figure. */
module Palette {

  datatype Color = Emerald | Amber | Rose | Indigo
}
