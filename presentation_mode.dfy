/** The presentation tool mode shared by the top bar and the pages. */
module PresentationMode {
  datatype Mode = Normal | Draw | Erase | Laser
}
