/** The closed set of filters the controller can run, in declaration order. */
module FilterTypes {

  datatype FilterType = None | Grayscale | Sobel
}
