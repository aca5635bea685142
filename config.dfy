/**
 * The run configuration that the training script reads from its command line,
 * reduced to the options that steer the modelled logic.
 */
module Config {

  /** `opt.optimizer`: 'sgd' selects SGD, anything else Adam. */
  datatype OptimizerKind = Sgd | Adam

  /** `opt.data_augmentation`: none, between-class mixing ('bc+') or 'mixup'. */
  datatype Augmentation = NoAugmentation | BetweenClass | Mixup

  /** `opt.output_std` of the entire-leaf classifier: 'multitask', 'disease', anything else severity. */
  datatype OutputMode = Multitask | Disease | Severity

  /** The keys of the `train_metrics` / `val_metrics` dictionaries the epoch loops return. */
  datatype MetricKey = Loss | DisAcc | SevAcc | Acc

  /** The hyperparameter entries a training record starts with. */
  datatype Hyperparameters = Hyperparameters(
    model: string,
    batchSize: int,
    weightDecay: real,
    optimizer: OptimizerKind,
    pretrained: bool,
    dataAugmentation: Augmentation,
    epochs: int)
}
