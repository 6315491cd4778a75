/** The data a chart is drawn from (the `data` prop of HealthChart): one
    labelled value per point, in drawing order. The drawing itself is not
    modelled. */
module Chart {
  datatype ChartPoint = ChartPoint(time: string, value: real)
}
